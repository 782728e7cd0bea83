/** The recordings folder (services/storage/file-storage.ts): the file name
    scheme, reading the timestamp back out of a name, filtering by context and
    the keep-newest-N clean-up. The folder is its listing of file names. */
module FileStorage {
  import opened Js
  import opened Text
  import Sorting

  /** `RECORDINGS_DIR`: the `recordings/` folder of the documents directory. */
  function RecordingsDir(documentDirectory: string): string {
    documentDirectory + "recordings/"
  }

  /** The name `saveRecording` gives a recording made at `now` (ms). */
  function RecordingFilename(context: string, now: nat): (f: string)
    ensures |f| > |context| + 5 && f[..|context|] == context && f[|context|] == '_' && f[|f| - 4..] == ".wav"
    ensures AllDigits(f[|context| + 1..|f| - 4]) && ParseDigits(f[|context| + 1..|f| - 4]) == now
  {
    var f := context + "_" + NatToString(now) + ".wav";
    assert f[|context| + 1..|f| - 4] == NatToString(now);
    ParseNatToString(now);
    f
  }

  /** `uri.split('/').pop() || ''`: the part after the last '/'. */
  function LastSegment(uri: string): (seg: string)
    ensures !HasChar(seg, '/')
    ensures |seg| <= |uri| && seg == uri[|uri| - |seg|..]
  {
    if uri == [] || uri[|uri| - 1] == '/' then []
    else LastSegment(uri[..|uri| - 1]) + [uri[|uri| - 1]]
  }

  /** The segment runs back to the last '/', or to the start when there is none. */
  lemma {:induction false} LastSegmentIsWholeTail(uri: string)
    ensures var seg := LastSegment(uri);
      |seg| == |uri| || uri[|uri| - |seg| - 1] == '/'
  {
    if uri != [] && uri[|uri| - 1] != '/' {
      var prefix := uri[..|uri| - 1];
      LastSegmentIsWholeTail(prefix);
      assert |LastSegment(uri)| == |LastSegment(prefix)| + 1;
      if |LastSegment(prefix)| < |prefix| {
        assert uri[|uri| - |LastSegment(uri)| - 1] == prefix[|prefix| - |LastSegment(prefix)| - 1];
      }
    }
  }

  /** The length of the run of digits starting at `j`. */
  function DigitRun(s: string, j: nat): (n: nat)
    requires j <= |s|
    ensures j + n <= |s| && AllDigits(s[j..j + n])
    ensures j + n < |s| ==> !IsDigit(s[j + n])
    decreases |s| - j
  {
    if j < |s| && IsDigit(s[j]) then
      var n := DigitRun(s, j + 1);
      assert s[j..j + 1 + n] == [s[j]] + s[j + 1..j + 1 + n];
      1 + n
    else 0
  }

  /** `/_(\d+)\./` matches at `i`: an underscore, digits and a dot. As the
      digit run before the dot can only be the whole run, greedy matching and
      backtracking agree on it. */
  predicate MatchAt(s: string, i: nat) {
    i < |s| && s[i] == '_' && DigitRun(s, i + 1) >= 1
    && i + 1 + DigitRun(s, i + 1) < |s| && s[i + 1 + DigitRun(s, i + 1)] == '.'
  }

  /** The leftmost match at or after `i`. */
  function FirstMatch(s: string, i: nat): (r: Option<nat>)
    ensures r.Some? ==> i <= r.value < |s| && MatchAt(s, r.value)
    ensures r.Some? ==> forall j | i <= j < r.value :: !MatchAt(s, j)
    ensures r.None? ==> forall j | i <= j < |s| :: !MatchAt(s, j)
    decreases |s| - i
  {
    if i >= |s| then None
    else if MatchAt(s, i) then Some(i)
    else FirstMatch(s, i + 1)
  }

  /** `extractTimestamp`: the digits of the leftmost match in the last path
      segment, or 0 when there is none. */
  function ExtractTimestamp(uri: string): (t: nat)
    ensures (forall j | 0 <= j < |LastSegment(uri)| :: !MatchAt(LastSegment(uri), j)) ==> t == 0
  {
    var name := LastSegment(uri);
    match FirstMatch(name, 0)
    case None => 0
    case Some(i) => ParseDigits(name[i + 1..i + 1 + DigitRun(name, i + 1)])
  }

  /** A digit run that stops before a non-digit at `n` is the same in the prefix up to `n`. */
  lemma {:induction false} DigitRunPrefix(s: string, n: nat, j: nat)
    requires j <= n < |s| && !IsDigit(s[n])
    ensures DigitRun(s, j) == DigitRun(s[..n], j)
    decreases n - j
  {
    if j < n && IsDigit(s[j]) {
      DigitRunPrefix(s, n, j + 1);
    }
  }

  /** A run of digits from `j` up to a non-digit at `e` is the digit run at `j`. */
  lemma {:induction false} DigitRunUpTo(s: string, j: nat, e: nat)
    requires j <= e < |s| && !IsDigit(s[e])
    requires forall k | j <= k < e :: IsDigit(s[k])
    ensures DigitRun(s, j) == e - j
    decreases e - j
  {
    if j < e {
      DigitRunUpTo(s, j + 1, e);
    }
  }

  /** In a recording's file name the underscore after the context starts the
      timestamp's digits, which run up to the dot. */
  lemma FilenameShape(context: string, now: nat)
    ensures var f, n := RecordingFilename(context, now), |NatToString(now)|;
      && |f| == |context| + n + 5
      && f[..|context|] == context
      && f[|context|] == '_'
      && f[|context| + 1..|context| + 1 + n] == NatToString(now)
      && f[|context| + 1 + n] == '.'
      && DigitRun(f, |context| + 1) == n
  {
    var f, d := RecordingFilename(context, now), NatToString(now);
    assert f == context + "_" + d + ".wav";
    assert forall k | |context| + 1 <= k < |context| + 1 + |d| :: f[k] == d[k - |context| - 1];
    assert f[|context| + 1..|context| + 1 + |d|] == d;
    DigitRunUpTo(f, |context| + 1, |context| + 1 + |d|);
  }

  /** A context with no '/' and no "_<digits>." of its own. */
  predicate PlainContext(context: string) {
    !HasChar(context, '/') && forall i | 0 <= i < |context| :: !MatchAt(context, i)
  }

  /** No match starts inside a plain context followed by '_', which is
      neither a digit nor a dot. */
  lemma NoMatchInContext(s: string, n: nat, i: nat)
    requires n < |s| && s[n] == '_' && PlainContext(s[..n])
    requires i < n
    ensures !MatchAt(s, i)
  {
    var context := s[..n];
    assert s[i] == context[i];
    if s[i] == '_' {
      DigitRunPrefix(s, n, i + 1);
      var r := DigitRun(context, i + 1);
      if i + 1 + r < n {
        assert s[i + 1 + r] == context[i + 1 + r];
        assert !MatchAt(context, i);
      }
    }
  }

  /** The first match from `i` is the first index from `i` that matches. */
  lemma {:induction false} FirstMatchAt(s: string, n: nat, i: nat)
    requires i <= n && MatchAt(s, n)
    requires forall j | i <= j < n :: !MatchAt(s, j)
    ensures FirstMatch(s, i) == Some(n)
    decreases n - i
  {
    if i < n {
      FirstMatchAt(s, n, i + 1);
    }
  }

  /** In a recording's file name the leftmost match is the underscore after
      the context. */
  lemma FirstMatchIsSuffix(context: string, now: nat)
    requires PlainContext(context)
    ensures FirstMatch(RecordingFilename(context, now), 0) == Some(|context|)
  {
    var f := RecordingFilename(context, now);
    FilenameShape(context, now);
    assert PlainContext(f[..|context|]);
    forall j | 0 <= j < |context|
      ensures !MatchAt(f, j)
    {
      NoMatchInContext(f, |context|, j);
    }
    FirstMatchAt(f, |context|, 0);
  }

  /** The last segment of a path into a folder is the file name. */
  lemma {:induction false} LastSegmentOfPath(dir: string, name: string)
    requires dir != [] && dir[|dir| - 1] == '/' && !HasChar(name, '/')
    ensures LastSegment(dir + name) == name
    decreases |name|
  {
    if name == [] {
      assert dir + name == dir;
    } else {
      var s := dir + name;
      assert s[..|s| - 1] == dir + name[..|name| - 1];
      assert s[|s| - 1] == name[|name| - 1];
      LastSegmentOfPath(dir, name[..|name| - 1]);
    }
  }

  /** The timestamp in a saved recording's path is the one it was saved with. */
  lemma ExtractTimestampRoundTrip(documentDirectory: string, context: string, now: nat)
    requires PlainContext(context)
    ensures ExtractTimestamp(RecordingsDir(documentDirectory) + RecordingFilename(context, now)) == now
  {
    var dir := RecordingsDir(documentDirectory);
    var f := RecordingFilename(context, now);
    var n := |context|;
    FilenameHasNoSlash(context, now);
    LastSegmentOfPath(dir, f);
    assert LastSegment(dir + f) == f;
    FirstMatchIsSuffix(context, now);
    FilenameShape(context, now);
    assert f[n + 1..n + 1 + DigitRun(f, n + 1)] == NatToString(now);
    ParseNatToString(now);
  }

  /** A recording's file name has no '/' when its context has none. */
  lemma FilenameHasNoSlash(context: string, now: nat)
    requires !HasChar(context, '/')
    ensures !HasChar(RecordingFilename(context, now), '/')
  {
    var f := RecordingFilename(context, now);
    var digits := NatToString(now);
    assert f == context + "_" + digits + ".wav";
    forall k | 0 <= k < |f|
      ensures f[k] != '/'
    {
      if k < |context| {
        assert f[k] == context[k];
      } else if k == |context| {
      } else if k < |context| + 1 + |digits| {
        assert f[k] == digits[k - |context| - 1];
      } else {
        assert f[k] == ".wav"[k - |context| - 1 - |digits|];
      }
    }
  }

  /** A name with no underscore-digits-dot pattern yields 0. */
  lemma ExtractTimestampNoMatch(uri: string)
    requires !HasChar(LastSegment(uri), '_')
    ensures ExtractTimestamp(uri) == 0
  {
  }

  /** `getAllRecordings`: every listed name prefixed with the folder. */
  function AllRecordings(dir: string, files: seq<string>): (uris: seq<string>)
    ensures |uris| == |files|
    ensures forall i | 0 <= i < |files| :: uris[i] == dir + files[i]
  {
    if files == [] then [] else [dir + files[0]] + AllRecordings(dir, files[1..])
  }

  /** `getRecordingsByContext`: the URIs containing `<context>_`, in order. */
  function RecordingsByContext(uris: seq<string>, context: string): (r: seq<string>)
    ensures |r| <= |uris|
    ensures forall u | u in r :: u in uris && Contains(u, context + "_")
    ensures forall u | u in uris && Contains(u, context + "_") :: u in r
  {
    if uris == [] then []
    else
      var rest := RecordingsByContext(uris[1..], context);
      assert forall u | u in uris[1..] :: u in uris;
      assert forall u | u in uris :: u == uris[0] || u in uris[1..];
      if Contains(uris[0], context + "_") then [uris[0]] + rest else rest
  }

  /** The filter keeps order and multiplicity: a URI added at the end joins
      the end of the result exactly when it contains `<context>_`, and an
      empty listing gives nothing. */
  lemma {:induction false} RecordingsByContextAppend(uris: seq<string>, u: string, context: string)
    ensures RecordingsByContext([], context) == []
    ensures RecordingsByContext(uris + [u], context)
         == RecordingsByContext(uris, context) + (if Contains(u, context + "_") then [u] else [])
    decreases |uris|
  {
    if uris == [] {
      assert uris + [u] == [u];
      assert [u][1..] == [];
    } else {
      assert (uris + [u])[0] == uris[0];
      assert (uris + [u])[1..] == uris[1..] + [u];
      RecordingsByContextAppend(uris[1..], u, context);
    }
  }

  /** A recording saved for a context is among that context's recordings. */
  lemma SavedRecordingFoundByContext(dir: string, context: string, now: nat, uris: seq<string>)
    requires dir + RecordingFilename(context, now) in uris
    ensures dir + RecordingFilename(context, now) in RecordingsByContext(uris, context)
  {
    var u := dir + RecordingFilename(context, now);
    assert u == dir + (context + "_") + (NatToString(now) + ".wav");
    assert OccursAt(u, context + "_", |dir|);
  }

  /** The default number of recordings kept. */
  const DefaultKeepCount := 20

  /** The start index `Array.prototype.slice(start)` uses on a list of length `n`. */
  function SliceStart(start: int, n: nat): (k: nat)
    ensures k <= n
    ensures 0 <= start <= n ==> k == start
  {
    if start < 0 then (if n + start < 0 then 0 else n + start)
    else if start > n then n else start
  }

  /** Newest first: the key the clean-up sorts by. */
  function NewestFirst(uri: string): int {
    -(ExtractTimestamp(uri) as int)
  }

  /** The list sorted newest first. */
  function SortedNewestFirst(recordings: seq<string>): seq<string> {
    Sorting.SortBy(recordings, NewestFirst)
  }

  /** A suffix holds no element more often than the whole sequence. */
  lemma SuffixSubMultiset(s: seq<string>, k: nat)
    requires k <= |s|
    ensures multiset(s[k..]) <= multiset(s)
  {
    assert s == s[..k] + s[k..];
  }

  /** The recordings `cleanupOldRecordings` deletes. */
  function RecordingsToDelete(recordings: seq<string>, keepCount: int): (r: seq<string>)
    ensures |recordings| <= keepCount ==> r == []
    ensures multiset(r) <= multiset(recordings)
  {
    if |recordings| <= keepCount then []
    else
      var sorted := SortedNewestFirst(recordings);
      var k := SliceStart(keepCount, |sorted|);
      SuffixSubMultiset(sorted, k);
      sorted[k..]
  }

  /** Nothing is deleted while there are at most `keepCount` recordings;
      otherwise exactly the surplus is, all of them recordings of the list. */
  lemma CleanupCount(recordings: seq<string>, keepCount: nat)
    ensures |recordings| <= keepCount ==> RecordingsToDelete(recordings, keepCount) == []
    ensures |recordings| > keepCount ==> |RecordingsToDelete(recordings, keepCount)| == |recordings| - keepCount
    ensures multiset(RecordingsToDelete(recordings, keepCount)) <= multiset(recordings)
  {
    if |recordings| > keepCount {
      var sorted := SortedNewestFirst(recordings);
      assert sorted == sorted[..keepCount] + sorted[keepCount..];
    }
  }

  /** Every kept recording is at least as new as every deleted one. */
  lemma CleanupKeepsNewest(recordings: seq<string>, keepCount: nat)
    requires |recordings| > keepCount
    ensures var sorted := SortedNewestFirst(recordings);
      && RecordingsToDelete(recordings, keepCount) == sorted[keepCount..]
      && multiset(sorted[..keepCount]) + multiset(sorted[keepCount..]) == multiset(recordings)
      && forall i, j | 0 <= i < keepCount <= j < |sorted| ::
           ExtractTimestamp(sorted[i]) >= ExtractTimestamp(sorted[j])
  {
    var sorted := SortedNewestFirst(recordings);
    Sorting.SortBySorted(recordings, NewestFirst);
    assert sorted == sorted[..keepCount] + sorted[keepCount..];
    forall i, j | 0 <= i < keepCount <= j < |sorted|
      ensures ExtractTimestamp(sorted[i]) >= ExtractTimestamp(sorted[j])
    {
      assert NewestFirst(sorted[i]) <= NewestFirst(sorted[j]);
    }
  }

  /** The names of `files` whose full path is not in `deleted`. */
  function Without(dir: string, files: seq<string>, deleted: seq<string>): (r: seq<string>)
    ensures forall f | f in r :: f in files && dir + f !in deleted
    ensures forall f | f in files && dir + f !in deleted :: f in r
  {
    if files == [] then []
    else
      var rest := Without(dir, files[1..], deleted);
      assert forall f | f in files :: f == files[0] || f in files[1..];
      if dir + files[0] in deleted then rest else [files[0]] + rest
  }

  /** The recordings folder: its path and its listing of file names. */
  class RecordingsFolder {
    const dir: string
    var files: seq<string>

    constructor (documentDirectory: string, files: seq<string>)
      ensures dir == RecordingsDir(documentDirectory) && this.files == files
    {
      dir := RecordingsDir(documentDirectory);
      this.files := files;
    }

    function GetAllRecordings(): seq<string>
      reads this
    {
      AllRecordings(dir, files)
    }

    /** `saveRecording`: move the temporary file into the folder under its
      new name (replacing a file of that name) and return its URI. */
    method SaveRecording(context: string, now: nat) returns (permanentUri: string)
      modifies this
      ensures permanentUri == dir + RecordingFilename(context, now)
      ensures files == if RecordingFilename(context, now) in old(files) then old(files)
                       else old(files) + [RecordingFilename(context, now)]
    {
      var filename := RecordingFilename(context, now);
      permanentUri := dir + filename;
      if filename !in files {
        files := files + [filename];
      }
    }

    /** `cleanupOldRecordings`: delete every recording past the newest `keepCount`. */
    method CleanupOldRecordings(keepCount: int)
      modifies this
      ensures files == Without(dir, old(files), RecordingsToDelete(AllRecordings(dir, old(files)), keepCount))
    {
      var recordings := GetAllRecordings();
      if |recordings| <= keepCount {
        assert RecordingsToDelete(recordings, keepCount) == [];
        WithoutNothing(dir, files);
        return;
      }
      var toDelete := RecordingsToDelete(recordings, keepCount);
      files := Without(dir, files, toDelete);
    }
  }

  /** Deleting nothing keeps the listing. */
  lemma {:induction false} WithoutNothing(dir: string, files: seq<string>)
    ensures Without(dir, files, []) == files
  {
    if files != [] {
      WithoutNothing(dir, files[1..]);
    }
  }
}
