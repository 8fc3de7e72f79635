/** The remote server, seen only through its operation protocol.  Every
    low-level operation of the client is one `Call`; what the server answers
    is not computed here but supplied from outside as a script of replies,
    consumed one per call.  A ghost log records every call made, in order. */
module Server {
  import opened Values

  /** One low-level operation with the arguments the client puts in its body. */
  datatype Call =
    | CreateSchema(schema: Json)
    | DropSchema(schema: Json)
    | DescribeSchema(schema: Json)
    | CreateTable(schema: Json, table: Json, hashAttribute: Json)
    | DescribeTable(schema: Json, table: Json)
    | DescribeAll
    | DropTable(schema: Json, table: Json)
    | Insert(schema: Json, table: Json, records: Json)
    | Update(schema: Json, table: Json, records: Json)
    | Delete(schema: Json, table: Json, hashValues: Json)
    | SearchByHash(schema: Json, table: Json, hashValues: Json, getAttributes: Json)
    | SearchByValue(schema: Json, table: Json, searchAttribute: Json, searchValue: Json, getAttributes: Json)

  /** What the server does with one request: answer with a JSON body, or
      reject it with an error status and a message. */
  datatype Reply = Answer(body: Json) | Rejected(message: string)

  /** The replies still to come and the calls made so far. */
  datatype World = World(replies: seq<Reply>, log: seq<Call>)

  /** The outcome of an operation and the world after it. */
  datatype Out<T> = Out(result: Result<T>, world: World)

  /** The `get_attributes` argument the search operations send by default. */
  const AllAttributes: Json := JList([JStr("*")])

  /** One request: the call is logged and the next reply consumed.  A
      rejected request raises HarperDBError with the server's message; when
      no reply is left the request fails in transport. */
  function Exchange(w: World, c: Call): (o: Out<Json>)
    ensures o.world.log == w.log + [c]
    ensures w.replies != [] ==> o.world.replies == w.replies[1..]
    ensures w.replies != [] && w.replies[0].Answer? ==> o.result == Ok(w.replies[0].body)
    ensures w.replies != [] && w.replies[0].Rejected? ==> o.result == Err(HarperDBError(w.replies[0].message))
    ensures w.replies == [] ==> o.result == Err(ConnectionError) && o.world.replies == []
  {
    if w.replies == [] then Out(Err(ConnectionError), World([], w.log + [c]))
    else
      var w' := World(w.replies[1..], w.log + [c]);
      match w.replies[0]
      case Answer(body) => Out(Ok(body), w')
      case Rejected(m) => Out(Err(HarperDBError(m)), w')
  }

  class Server {
    var replies: seq<Reply>
    ghost var log: seq<Call>

    constructor (script: seq<Reply>)
      ensures replies == script && log == []
    {
      replies := script;
      log := [];
    }

    ghost function State(): World
      reads this
    {
      World(replies, log)
    }

    method Send(c: Call) returns (r: Result<Json>)
      modifies this
      ensures Out(r, State()) == Exchange(old(State()), c)
    {
      if replies == [] {
        r := Err(ConnectionError);
      } else {
        var reply := replies[0];
        replies := replies[1..];
        match reply
        case Answer(body) => r := Ok(body);
        case Rejected(m) => r := Err(HarperDBError(m));
      }
      log := log + [c];
    }
  }
}
