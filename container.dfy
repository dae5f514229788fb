/** The compound-file container as the readers see it: named byte streams
    under '/'-separated paths, plus the stream listing olefile's listdir()
    returns. Names are looked up without regard to ASCII case, as olefile
    does; the listing keeps each name as stored. */
module Ole {

  import opened Common
  import opened Text

  /** `streams` is keyed by the lower-cased full path of each stream;
      `listing` is listdir(): the path components of every stream, in the
      order the library yields them. */
  datatype Container = Container(streams: map<string, seq<byte>>, listing: seq<seq<string>>)

  /** '/'.join(parts): how a listing entry names its stream. */
  function JoinPath(parts: seq<string>): (p: string)
    ensures |parts| == 1 ==> p == parts[0]
  {
    if parts == [] then "" else if |parts| == 1 then parts[0] else parts[0] + "/" + JoinPath(parts[1..])
  }

  /** ole.exists(path). */
  predicate Exists(c: Container, path: string)
  {
    Lower(path) in c.streams
  }

  /** ole.openstream(path).read(): the whole stream, or the "not found"
      error olefile raises for a missing one. */
  function OpenStream(c: Container, path: string): (r: Result<seq<byte>>)
    ensures r.Ok? <==> Exists(c, path)
    ensures r.Ok? ==> r.value == c.streams[Lower(path)]
    ensures r.Err? ==> r.error == StreamNotFound(path)
  {
    if Lower(path) in c.streams then Ok(c.streams[Lower(path)]) else Err(StreamNotFound(path))
  }

  /** Lookup ignores ASCII case: two spellings of one path read the same
      stream, or both fail. */
  lemma OpenStreamIgnoresCase(c: Container, p: string, q: string)
    requires Lower(p) == Lower(q)
    ensures OpenStream(c, p).Ok? == OpenStream(c, q).Ok?
    ensures OpenStream(c, p).Ok? ==> OpenStream(c, p).value == OpenStream(c, q).value
  {
  }
}
