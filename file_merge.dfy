/**
 * The dictionary update at the heart of `createOrUpdateFiles`: every
 * `{path, content}` entry of the input list is stored under its path, in
 * list order, so that the last entry naming a path wins.
 */
module FileMerge {

  /** One element of the tool's `files` argument. */
  datatype FileEntry = FileEntry(path: string, content: string)

  /**
   * The one key a plain JavaScript object does not store as its own
   * property: assigning to it calls the inherited `__proto__` setter,
   * which ignores a string value.
   */
  const ProtoKey: string := "__proto__"

  /** The paths named by a list of entries. */
  function Paths(fs: seq<FileEntry>): set<string> {
    set i | 0 <= i < |fs| :: fs[i].path
  }

  /** The paths of a list are those of all but its last entry, plus the last one's. */
  lemma PathsSnoc(fs: seq<FileEntry>)
    requires fs != []
    ensures Paths(fs) == Paths(fs[..|fs| - 1]) + {fs[|fs| - 1].path}
  {
    var n := |fs|;
    forall q | q in Paths(fs) ensures q in Paths(fs[..n - 1]) + {fs[n - 1].path} {
      var j :| 0 <= j < n && fs[j].path == q;
      if j < n - 1 { assert fs[..n - 1][j].path == q; }
    }
    forall q | q in Paths(fs[..n - 1]) ensures q in Paths(fs) {
      var j :| 0 <= j < n - 1 && fs[..n - 1][j].path == q;
      assert fs[j].path == q;
    }
  }

  /**
   * The plain object `m` after `m[e.path] = e.content` for every entry `e`
   * of `fs`, in order. Nothing is removed.
   */
  function Merged(m: map<string, string>, fs: seq<FileEntry>): (r: map<string, string>)
    ensures m.Keys <= r.Keys
    decreases |fs|
  {
    if fs == [] then m
    else
      var n := |fs|;
      var before := Merged(m, fs[..n - 1]);
      if fs[n - 1].path == ProtoKey then before
      else before[fs[n - 1].path := fs[n - 1].content]
  }

  /**
   * The sandbox's files after `sandbox.files.write(e.path, e.content)` for
   * every entry `e` of `fs`, in order.
   */
  function Saved(disk: map<string, string>, fs: seq<FileEntry>): map<string, string>
    decreases |fs|
  {
    if fs == [] then disk
    else Saved(disk, fs[..|fs| - 1])[fs[|fs| - 1].path := fs[|fs| - 1].content]
  }

  /** Entry `i` is the last entry of `fs` that names its path. */
  predicate LastOccurrence(fs: seq<FileEntry>, i: int) {
    0 <= i < |fs| && forall j :: i < j < |fs| ==> fs[j].path != fs[i].path
  }

  /**
   * The object and the sandbox differ only in `__proto__`: the object
   * holds exactly what the sandbox holds, without that key.
   */
  lemma {:induction false} MergedIsSavedWithoutProto(m: map<string, string>, fs: seq<FileEntry>)
    requires ProtoKey !in m
    ensures Merged(m, fs) == Saved(m, fs) - {ProtoKey}
    decreases |fs|
  {
    if fs != [] {
      var n := |fs|;
      MergedIsSavedWithoutProto(m, fs[..n - 1]);
    }
  }

  /** Each path of the input other than `__proto__` ends up holding the content of its last occurrence. */
  lemma {:induction false} MergedLastWins(m: map<string, string>, fs: seq<FileEntry>, i: int)
    requires LastOccurrence(fs, i) && fs[i].path != ProtoKey
    ensures fs[i].path in Merged(m, fs) && Merged(m, fs)[fs[i].path] == fs[i].content
    decreases |fs|
  {
    var n := |fs|;
    if i < n - 1 {
      assert LastOccurrence(fs[..n - 1], i);
      MergedLastWins(m, fs[..n - 1], i);
    }
  }

  /** A path the input does not name, and `__proto__` always, keeps what `m` had for it, present or absent. */
  lemma {:induction false} MergedKeepsOthers(m: map<string, string>, fs: seq<FileEntry>, p: string)
    requires p !in Paths(fs) || p == ProtoKey
    ensures p in Merged(m, fs) <==> p in m
    ensures p in m ==> Merged(m, fs)[p] == m[p]
    decreases |fs|
  {
    var n := |fs|;
    if n > 0 {
      PathsSnoc(fs);
      MergedKeepsOthers(m, fs[..n - 1], p);
    }
  }

  /** The keys afterwards are the old keys plus the input paths other than `__proto__`. */
  lemma {:induction false} MergedKeys(m: map<string, string>, fs: seq<FileEntry>)
    ensures Merged(m, fs).Keys == m.Keys + (Paths(fs) - {ProtoKey})
    decreases |fs|
  {
    if fs != [] {
      MergedKeys(m, fs[..|fs| - 1]);
      PathsSnoc(fs);
    }
  }

  /** Every named path has a last occurrence. */
  lemma {:induction false} LastOccurrenceExists(fs: seq<FileEntry>, p: string) returns (i: int)
    requires p in Paths(fs)
    ensures LastOccurrence(fs, i) && fs[i].path == p
    decreases |fs|
  {
    var n := |fs|;
    if fs[n - 1].path == p {
      i := n - 1;
    } else {
      var j :| 0 <= j < n && fs[j].path == p;
      assert fs[..n - 1][j].path == p;
      i := LastOccurrenceExists(fs[..n - 1], p);
      assert fs[..n - 1][i] == fs[i];
    }
  }

  /** Two successive merges are one merge of the concatenated lists (write convergence). */
  lemma {:induction false} MergedCompose(m: map<string, string>, a: seq<FileEntry>, b: seq<FileEntry>)
    ensures Merged(Merged(m, a), b) == Merged(m, a + b)
    decreases |b|
  {
    if b == [] {
      assert a + b == a;
    } else {
      var n := |b|;
      MergedCompose(m, a, b[..n - 1]);
      assert (a + b)[..|a + b| - 1] == a + b[..n - 1];
      assert (a + b)[|a + b| - 1] == b[n - 1];
    }
  }

  /** Merging the same list twice changes nothing the first merge did not. */
  lemma MergedIdempotent(m: map<string, string>, fs: seq<FileEntry>)
    ensures Merged(Merged(m, fs), fs) == Merged(m, fs)
  {
    var once := Merged(m, fs);
    var twice := Merged(once, fs);
    MergedKeys(m, fs);
    MergedKeys(once, fs);
    forall p | p in twice ensures twice[p] == once[p] {
      if p in Paths(fs) && p != ProtoKey {
        var i := LastOccurrenceExists(fs, p);
        MergedLastWins(m, fs, i);
        MergedLastWins(once, fs, i);
      } else {
        MergedKeepsOthers(once, fs, p);
      }
    }
  }
}
