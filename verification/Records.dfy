/** The values the store keeps and the events it hands out. */
module Records {
  import opened Options
  import opened EventKeys

  datatype Error = NotFound | NameRequired | NotLeader | KeyRefused | BadLogEntry | UnknownOp(op: string)

  datatype Kind =
    | NoKind | KindProject | KindNode | KindContainer | KindFunction | KindBucket | KindAccessKey
    | KindUser | KindToken | KindCluster | KindSecret | KindEventRule | KindBuild | KindEvent

  /** Wall-clock readings; only their identity and order matter here. */
  type Instant = int

  datatype Meta = Meta(project: string, name: string, uid: string, generation: int,
                       createdAt: Instant, updatedAt: Instant, labels: Option<map<string, string>>)

  /** What a resource carries besides its Meta: the fields that some operation
      looks at, the rest being payload. */
  datatype Body =
    | Build(functionRef: string, details: string)
    | Function(runtime: string, sourceRef: string, details: string)
    | Delivery(rule: string, status: int, error: string, attempt: nat, done: bool, eventUid: string)
    | Payload(content: string)

  datatype Resource = Resource(meta: Meta, body: Body)

  datatype EventRecord = EventRecord(uid: string, eventType: string, project: string, subject: string, at: Time)

  /** The JSON documents held in buckets. `Encoded` is always of `OnWire` form. */
  datatype Doc = Encoded(r: Resource) | Logged(e: EventRecord) | Undecodable(bytes: string)

  datatype Op = OpPut | OpDelete

  datatype Event = Event(kind: Kind, op: Op, project: string, name: string, value: Option<Resource>)

  /** The readings one put takes: newUID and the two time.Now calls. */
  datatype Mint = Mint(uid: string, created: Instant, updated: Instant)

  /** A value after a trip through JSON: `omitempty` turns an empty map into a
      missing one. */
  function OnWire(r: Resource): Resource {
    if r.meta.labels == Some(map[]) then r.(meta := r.meta.(labels := None)) else r
  }

  function Marshal(r: Resource): Doc {
    Encoded(OnWire(r))
  }

  /** json.Unmarshal of a stored resource. */
  function Unmarshal(d: Doc): Option<Resource> {
    if d.Encoded? then Some(d.r) else None
  }

  /** A Go resource value: callers hold a pointer, and a put writes its Meta. */
  class Record {
    var meta: Meta
    var body: Body

    constructor (r: Resource)
      ensures Value() == r
    {
      meta := r.meta;
      body := r.body;
    }

    function Value(): Resource
      reads this
    {
      Resource(meta, body)
    }
  }
}
