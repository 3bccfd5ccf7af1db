/** The profile capture hook `gcsRecorderHook` (dataflow.go:169-182): a factory
    that parses its destination once, and the capture function it returns,
    which writes one stream to one object in Cloud Storage.

    The returned closure is represented by the values it captures, a
    `RecorderHook`, and applying it is `Capture`. */
module Capture {
  import opened Wrappers
  import opened Strings

  const InvalidConfigPrefix := "Invalid hook configuration for gcsRecorderHook: "
  /** Go's run-time panic when `opts[0]` is read from an empty slice. */
  const IndexOutOfRangeMsg := "runtime error: index out of range [0] with length 0"
  const ClientErrPrefix := "couldn't establish GCS client: "
  /** `storage.DevstorageReadWriteScope`. */
  const ReadWriteScope := "https://www.googleapis.com/auth/devstorage.read_write"

  datatype Client = Client(handle: nat)

  /** What the capture function closes over: the bucket and the object prefix. */
  datatype RecorderHook = RecorderHook(bucket: string, prefix: string)

  /** Creating the hook either panics or yields the capture function. */
  datatype HookResult = Panic(message: string) | Hook(hook: RecorderHook)

  /** The storage calls one capture makes, in order. */
  datatype StorageCall = NewClient(scope: string) | WriteObject(bucket: string, path: string)

  /** The hook factory: `parseObject` is `gcsx.ParseObject`, giving bucket and object prefix. */
  function GcsRecorderHook(opts: seq<string>, parseObject: string -> Result<(string, string)>): (h: HookResult)
    ensures |opts| == 0 ==> h == Panic(IndexOutOfRangeMsg)
    ensures |opts| > 0 ==> (h.Hook? <==> parseObject(opts[0]).Ok?)
    ensures h.Hook? ==> |opts| > 0 && parseObject(opts[0]) == Ok((h.hook.bucket, h.hook.prefix))
    ensures |opts| > 0 && h.Panic? ==> h.message == InvalidConfigPrefix + FormatStrings(opts)
  {
    if |opts| == 0 then Panic(IndexOutOfRangeMsg)
    else match parseObject(opts[0])
      case Err(_) => Panic(InvalidConfigPrefix + FormatStrings(opts))
      case Ok((bucket, prefix)) => Hook(RecorderHook(bucket, prefix))
  }

  /** One capture of the stream `content` under the name `spec`: `newClient` is
      `gcsx.NewClient`, `pathJoin` is `path.Join`, `write` is `gcsx.WriteObject`.
      Returns the error and the storage calls made. */
  function Capture(
    h: RecorderHook, spec: string, content: seq<bv8>,
    newClient: string -> Result<Client>,
    pathJoin: (string, string) -> string,
    write: (Client, string, string, seq<bv8>) -> Status): (r: (Status, seq<StorageCall>))
    ensures |r.1| == if newClient(ReadWriteScope).Ok? then 2 else 1
    ensures r.1[0] == NewClient(ReadWriteScope)
    ensures WriteObject(h.bucket, pathJoin(h.prefix, spec)) in r.1 <==> newClient(ReadWriteScope).Ok?
    ensures forall c :: c in r.1 ==> c == NewClient(ReadWriteScope) || c == WriteObject(h.bucket, pathJoin(h.prefix, spec))
    ensures newClient(ReadWriteScope).Err? ==> r.0 == Failure(ClientErrPrefix + newClient(ReadWriteScope).error)
    ensures newClient(ReadWriteScope).Ok? ==> r.0 == write(newClient(ReadWriteScope).value, h.bucket, pathJoin(h.prefix, spec), content)
  {
    match newClient(ReadWriteScope)
    case Err(e) => (Failure(ClientErrPrefix + e), [NewClient(ReadWriteScope)])
    case Ok(client) =>
      var name := pathJoin(h.prefix, spec);
      (write(client, h.bucket, name, content), [NewClient(ReadWriteScope), WriteObject(h.bucket, name)])
  }

  /** The panic for an unparsable destination names the offending configuration:
      every option occurs in it. */
  lemma PanicNamesConfig(opts: seq<string>, parseObject: string -> Result<(string, string)>)
    requires |opts| > 0 && parseObject(opts[0]).Err?
    ensures GcsRecorderHook(opts, parseObject).Panic?
    ensures InvalidConfigPrefix <= GcsRecorderHook(opts, parseObject).message
    ensures forall k :: 0 <= k < |opts| ==> Contains(GcsRecorderHook(opts, parseObject).message, opts[k])
  {
    var m := GcsRecorderHook(opts, parseObject).message;
    var j := JoinSpaced(opts);
    var lead := InvalidConfigPrefix + "[";
    assert m == lead + (j + "]");
    JoinSpacedContainsAll(opts);
    forall k | 0 <= k < |opts| ensures Contains(m, opts[k]) {
      var i: nat :| OccursAt(opts[k], j, i);
      assert OccursAt(opts[k], j + "]", i) by {
        assert (j + "]")[i..i + |opts[k]|] == j[i..i + |opts[k]|];
      }
      OccursShift(opts[k], lead, j + "]", i);
    }
  }

  /** Every capture through a hook created from `opts` writes, if at all, to the
      bucket parsed from `opts[0]`, at the parsed prefix joined with the spec. */
  lemma CapturesGoToConfiguredObject(
    opts: seq<string>, parseObject: string -> Result<(string, string)>,
    spec: string, content: seq<bv8>,
    newClient: string -> Result<Client>,
    pathJoin: (string, string) -> string,
    write: (Client, string, string, seq<bv8>) -> Status)
    requires GcsRecorderHook(opts, parseObject).Hook?
    ensures var (bucket, prefix) := parseObject(opts[0]).value;
      forall c :: c in Capture(GcsRecorderHook(opts, parseObject).hook, spec, content, newClient, pathJoin, write).1 && c.WriteObject? ==>
        c.bucket == bucket && c.path == pathJoin(prefix, spec)
  {
  }
}
