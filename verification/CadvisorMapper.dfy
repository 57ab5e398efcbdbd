/** From the containers cAdvisor reports to the workloads of a host. */
module CadvisorMapper {
  import opened Counting
  import opened Text
  import opened Wrappers
  import opened InventoryDomain

  const SOURCE_NAME := "cadvisor"

  /** Timestamps count from Go's zero time, so 0 stands for a missing one. */
  datatype Container = Container(
    name: string, aliases: seq<string>, namespaceName: string, image: string, timestamps: seq<int>)

  // Slashes

  function DropLeadingSlashes(s: string): string {
    if s != [] && s[0] == '/' then DropLeadingSlashes(s[1..]) else s
  }

  function DropTrailingSlashes(s: string): string {
    if s != [] && s[|s| - 1] == '/' then DropTrailingSlashes(s[..|s| - 1]) else s
  }

  function TrimSlashes(s: string): string {
    DropTrailingSlashes(DropLeadingSlashes(s))
  }

  function AfterLastSlash(s: string): string {
    if s == [] || s[|s| - 1] == '/' then "" else AfterLastSlash(s[..|s| - 1]) + [s[|s| - 1]]
  }

  /** Go's `path.Base`. */
  function Base(path: string): string {
    if path == "" then "."
    else
      var base := AfterLastSlash(DropTrailingSlashes(path));
      if base == "" then "/" else base
  }

  ghost predicate SlashesFrom(s: string, j: nat) {
    forall k :: j <= k < |s| ==> s[k] == '/'
  }

  ghost predicate SegmentAt(s: string, i: nat, j: nat) {
    i < j <= |s| && '/' !in s[i..j] && (i == 0 || s[i - 1] == '/') && SlashesFrom(s, j)
  }

  /** What remains of a path without everything up to its last slash, trailing slashes aside. */
  ghost predicate IsLastSegment(segment: string, s: string) {
    exists i: nat, j: nat :: SegmentAt(s, i, j) && segment == s[i..j]
  }

  /** A path has at most one last segment. */
  lemma LastSegmentIsUnique(a: string, b: string, s: string)
    requires IsLastSegment(a, s) && IsLastSegment(b, s)
    ensures a == b
  {
    var i: nat, j: nat :| SegmentAt(s, i, j) && a == s[i..j];
    var i': nat, j': nat :| SegmentAt(s, i', j') && b == s[i'..j'];
    assert a[j - 1 - i] == s[j - 1] && b[j' - 1 - i'] == s[j' - 1];
    assert j == j';
    assert forall k :: i <= k < j ==> s[k] == a[k - i];
    assert forall k :: i' <= k < j ==> s[k] == b[k - i'];
  }

  lemma {:induction false} LeadingSlashesDropped(s: string) returns (a: nat)
    ensures a <= |s| && DropLeadingSlashes(s) == s[a..] && forall k :: 0 <= k < a ==> s[k] == '/'
    ensures a < |s| ==> s[a] != '/'
  {
    a := 0;
    if s != [] && s[0] == '/' {
      a := LeadingSlashesDropped(s[1..]);
      assert forall k :: 0 < k < |s| ==> s[k] == s[1..][k - 1];
      a := a + 1;
    }
  }

  lemma {:induction false} TrailingSlashesDropped(s: string) returns (b: nat)
    ensures b <= |s| && DropTrailingSlashes(s) == s[..b] && SlashesFrom(s, b)
    ensures b > 0 ==> s[b - 1] != '/'
  {
    b := |s|;
    if s != [] && s[|s| - 1] == '/' {
      b := TrailingSlashesDropped(s[..|s| - 1]);
      assert forall k :: 0 <= k < |s| - 1 ==> s[k] == s[..|s| - 1][k];
    }
  }

  lemma {:induction false} LastSlashPassed(s: string) returns (i: nat)
    ensures i <= |s| && AfterLastSlash(s) == s[i..] && '/' !in s[i..] && (i == 0 || s[i - 1] == '/')
  {
    i := |s|;
    if s != [] && s[|s| - 1] != '/' {
      i := LastSlashPassed(s[..|s| - 1]);
      assert s[i..] == s[..|s| - 1][i..] + [s[|s| - 1]];
    }
  }

  lemma SliceOfSlice(s: string, a: nat, b: nat, i: nat)
    requires a + b <= |s| && i <= b
    ensures s[a..][..b][i..] == s[a + i..a + b]
  {
    var x, y := s[a..][..b][i..], s[a + i..a + b];
    assert |x| == |y| == b - i;
    forall k | 0 <= k < b - i ensures x[k] == y[k] {
      assert x[k] == s[a..][..b][i + k] == s[a..][i + k] == s[a + i + k];
    }
  }

  lemma BaseOfTrimmed(s: string)
    requires TrimSlashes(s) != ""
    ensures IsLastSegment(Base(TrimSlashes(s)), s)
  {
    var t := DropLeadingSlashes(s);
    var a := LeadingSlashesDropped(s);
    var b := TrailingSlashesDropped(t);
    var u := t[..b];
    assert DropTrailingSlashes(u) == u;
    var i := LastSlashPassed(u);
    SliceOfSlice(s, a, b, i);
    assert forall k :: a <= k < |s| ==> s[k] == t[k - a];
    if i > 0 { assert s[a + i - 1] == u[i - 1]; } else if a > 0 { assert s[a - 1] == '/'; }
    assert SegmentAt(s, a + i, a + b);
  }

  lemma OnlySlashes(s: string)
    ensures TrimSlashes(s) == "" <==> SlashesFrom(s, 0)
  {
    var a := LeadingSlashesDropped(s);
    var t := s[a..];
    var b := TrailingSlashesDropped(t);
    if b > 0 { assert s[a + b - 1] == t[b - 1]; }
  }

  // Picking the parts of a workload

  function PickWorkloadId(key: string, aliases: seq<string>): string {
    if aliases == [] then if key == "" then "unknown" else key
    else if Trim(aliases[0]) != "" then Trim(aliases[0])
    else PickWorkloadId(key, aliases[1..])
  }

  function PickWorkloadName(key: string, aliases: seq<string>): string {
    if aliases == [] then if TrimSlashes(key) == "" then "unknown" else Base(TrimSlashes(key))
    else if Trim(aliases[0]) != "" && TrimSlashes(Trim(aliases[0])) != "" then Base(TrimSlashes(Trim(aliases[0])))
    else PickWorkloadName(key, aliases[1..])
  }

  function PickRuntime(namespaceName: string): string {
    if Trim(namespaceName) == "" then "unknown" else Trim(namespaceName)
  }

  function PickLastSeen(timestamps: seq<int>): Option<int> {
    if timestamps == [] || timestamps[|timestamps| - 1] == 0 then None else Some(timestamps[|timestamps| - 1])
  }

  /** An id is the first alias that is not blank, or else the key. */
  lemma {:induction false} IdIsFirstAlias(key: string, aliases: seq<string>)
    ensures PickWorkloadId(key, aliases) != ""
    ensures forall i ::
              0 <= i < |aliases| && Trim(aliases[i]) != "" && (forall j :: 0 <= j < i ==> Trim(aliases[j]) == "") ==>
              PickWorkloadId(key, aliases) == Trim(aliases[i])
    ensures key != "" && (forall i :: 0 <= i < |aliases| ==> Trim(aliases[i]) == "") ==>
              PickWorkloadId(key, aliases) == key
  {
    if aliases != [] && Trim(aliases[0]) == "" {
      var rest := aliases[1..];
      IdIsFirstAlias(key, rest);
      assert forall j :: 0 <= j < |rest| ==> rest[j] == aliases[j + 1];
      forall i | 0 <= i < |aliases| && Trim(aliases[i]) != "" && (forall j :: 0 <= j < i ==> Trim(aliases[j]) == "")
        ensures PickWorkloadId(key, aliases) == Trim(aliases[i])
      {
        assert Trim(rest[i - 1]) != "";
      }
    }
  }

  /** The text a name is taken from: the first alias that is not just slashes, or else the key. */
  ghost predicate IsNameSource(text: string, key: string, aliases: seq<string>) {
    || (exists i :: 0 <= i < |aliases| && text == Trim(aliases[i]) && !SlashesFrom(Trim(aliases[i]), 0)
                    && forall j :: 0 <= j < i ==> SlashesFrom(Trim(aliases[j]), 0))
    || (text == key && forall j :: 0 <= j < |aliases| ==> SlashesFrom(Trim(aliases[j]), 0))
  }

  /** A picked name is the last segment of its source, or `unknown` if that is just slashes. */
  lemma {:induction false} NameIsLastSegment(key: string, aliases: seq<string>) returns (text: string)
    ensures IsNameSource(text, key, aliases)
    ensures if SlashesFrom(text, 0) then PickWorkloadName(key, aliases) == "unknown"
            else IsLastSegment(PickWorkloadName(key, aliases), text)
  {
    if aliases == [] {
      text := key;
      OnlySlashes(key);
      if TrimSlashes(key) != "" { BaseOfTrimmed(key); }
    } else {
      text := Trim(aliases[0]);
      OnlySlashes(text);
      if TrimSlashes(text) != "" {
        BaseOfTrimmed(text);
      } else {
        text := NameIsLastSegment(key, aliases[1..]);
        assert forall j :: 0 < j < |aliases| ==> aliases[j] == aliases[1..][j - 1];
        if text != key || exists j :: 0 <= j < |aliases[1..]| && !SlashesFrom(Trim(aliases[1..][j]), 0) {
          var i :| 0 <= i < |aliases[1..]| && text == Trim(aliases[1..][i]) && !SlashesFrom(Trim(aliases[1..][i]), 0)
                   && forall j :: 0 <= j < i ==> SlashesFrom(Trim(aliases[1..][j]), 0);
          assert aliases[i + 1] == aliases[1..][i];
        }
      }
    }
  }

  /** Picked names are never empty and never contain a slash. */
  lemma PickedNamesAreClean(key: string, aliases: seq<string>)
    ensures PickWorkloadName(key, aliases) != "" && '/' !in PickWorkloadName(key, aliases)
  {
    var text := NameIsLastSegment(key, aliases);
  }

  // Normalisation

  predicate IsRoot(c: Container) {
    Trim(c.name) == "" || Trim(c.name) == "/"
  }

  function WorkloadOf(c: Container): WorkloadValue {
    WorkloadValue(PickWorkloadId(Trim(c.name), c.aliases), PickWorkloadName(Trim(c.name), c.aliases), Trim(c.image),
                  PickRuntime(c.namespaceName), SOURCE_NAME, PickLastSeen(c.timestamps))
  }

  /** The workloads of the containers other than the root, in order. */
  function WorkloadsOf(cs: seq<Container>): seq<WorkloadValue> {
    if cs == [] then []
    else WorkloadsOf(cs[..|cs| - 1]) + if IsRoot(cs[|cs| - 1]) then [] else [WorkloadOf(cs[|cs| - 1])]
  }

  ghost predicate Rearranged<T(!new)>(xs: seq<T>, ys: seq<T>) {
    forall x :: Times(xs, x) == Times(ys, x)
  }

  predicate SortedByName(cs: seq<Container>) {
    forall i, j :: 0 <= i < j < |cs| ==> !Less(Trim(cs[j].name), Trim(cs[i].name))
  }

  predicate NoneLess(cs: seq<Container>, c: Container) {
    forall j :: 0 <= j < |cs| ==> !Less(Trim(cs[j].name), Trim(c.name))
  }

  lemma {:induction false} LeastExists(cs: seq<Container>) returns (i: nat)
    requires cs != []
    ensures i < |cs| && NoneLess(cs, cs[i])
  {
    var n := |cs| - 1;
    if n == 0 {
      i := 0;
      LessIsIrreflexive(Trim(cs[0].name));
    } else {
      i := LeastExists(cs[..n]);
      assert forall j :: 0 <= j < n ==> cs[j] == cs[..n][j];
      if Less(Trim(cs[n].name), Trim(cs[i].name)) {
        forall j | 0 <= j < n ensures !Less(Trim(cs[j].name), Trim(cs[n].name)) {
          if Less(Trim(cs[j].name), Trim(cs[n].name)) {
            LessIsTransitive(Trim(cs[j].name), Trim(cs[n].name), Trim(cs[i].name));
          }
        }
        LessIsIrreflexive(Trim(cs[n].name));
        i := n;
      }
    }
  }

  /** Any arrangement by trimmed name: containers with one name may come in any order. */
  method SortByName(items: seq<Container>) returns (sorted: seq<Container>)
    ensures SortedByName(sorted) && Rearranged(sorted, items)
  {
    sorted := [];
    var left := items;
    while left != []
      invariant SortedByName(sorted) && forall i :: 0 <= i < |sorted| ==> NoneLess(left, sorted[i])
      invariant forall x :: Times(sorted, x) + Times(left, x) == Times(items, x)
      decreases |left|
    {
      ghost var least := LeastExists(left);
      var i: nat :| i < |left| && NoneLess(left, left[i]);
      forall x ensures Times(sorted + [left[i]], x) + Times(RemoveAt(left, i), x) == Times(items, x) {
        TimesAfterAppend(sorted, left[i], x);
        TimesAfterRemoval(left, i, x);
      }
      forall c | NoneLess(left, c) ensures NoneLess(RemoveAt(left, i), c) {}
      sorted := sorted + [left[i]];
      left := RemoveAt(left, i);
    }
  }

  /** The latest sighting after the zero time, or the zero time if there is none. */
  ghost predicate IsLatestSighting(at: int, cs: seq<Container>) {
    && at >= 0
    && (forall c :: c in cs && !IsRoot(c) && PickLastSeen(c.timestamps).Some? ==>
          PickLastSeen(c.timestamps).value <= at)
    && (at > 0 ==> exists c :: c in cs && !IsRoot(c) && PickLastSeen(c.timestamps) == Some(at))
  }

  lemma MembersOfRearranged<T(!new)>(xs: seq<T>, ys: seq<T>)
    requires Rearranged(xs, ys)
    ensures forall x :: x in xs <==> x in ys
  {
    forall x ensures x in xs <==> x in ys {
      TimesPositive(xs, x);
      TimesPositive(ys, x);
    }
  }

  /** `arranged` is the order that sorting came to. */
  method NormalizeContainers(response: seq<Container>)
    returns (workloads: seq<WorkloadValue>, latest: int, ghost arranged: seq<Container>)
    ensures Rearranged(arranged, response) && SortedByName(arranged)
    ensures workloads == WorkloadsOf(arranged)
    ensures IsLatestSighting(latest, response)
  {
    if |response| == 0 { return [], 0, []; }
    var items := SortByName(response);
    arranged := items;
    MembersOfRearranged(items, response);
    workloads, latest := [], 0;
    for i := 0 to |items|
      invariant workloads == WorkloadsOf(items[..i])
      invariant IsLatestSighting(latest, items[..i])
    {
      assert items[..i + 1] == items[..i] + [items[i]];
      var c := items[i];
      var name := Trim(c.name);
      if name == "" { name := "/"; }
      if name == "/" { continue; }
      var lastSeen := PickLastSeen(c.timestamps);
      if lastSeen.Some? && lastSeen.value > latest { latest := lastSeen.value; }
      workloads := workloads + [WorkloadValue(PickWorkloadId(name, c.aliases), PickWorkloadName(name, c.aliases),
                                              Trim(c.image), PickRuntime(c.namespaceName), SOURCE_NAME, lastSeen)];
    }
    assert items[..|items|] == items;
  }

  // Filtering

  predicate IsLikelySystemWorkload(w: WorkloadValue) {
    Trim(w.image) == "" && (Normalize(w.runtime) == "" || Normalize(w.runtime) == "unknown")
  }

  predicate Passes(w: WorkloadValue, includeSystemWorkloads: bool) {
    includeSystemWorkloads || !IsLikelySystemWorkload(w)
  }

  function Kept(ws: seq<WorkloadValue>, includeSystemWorkloads: bool): seq<WorkloadValue> {
    if ws == [] then []
    else Kept(ws[..|ws| - 1], includeSystemWorkloads)
         + if Passes(ws[|ws| - 1], includeSystemWorkloads) then [ws[|ws| - 1]] else []
  }

  lemma {:induction false} EverythingIsKept(ws: seq<WorkloadValue>)
    ensures Kept(ws, true) == ws
  {
    if ws != [] { EverythingIsKept(ws[..|ws| - 1]); }
  }

  method FilterWorkloads(workloads: seq<WorkloadValue>, includeSystemWorkloads: bool)
    returns (filtered: seq<WorkloadValue>)
    ensures filtered == Kept(workloads, includeSystemWorkloads)
  {
    if includeSystemWorkloads {
      EverythingIsKept(workloads);
      return workloads;
    }
    filtered := [];
    for i := 0 to |workloads|
      invariant filtered == Kept(workloads[..i], false)
    {
      assert workloads[..i + 1][..i] == workloads[..i];
      if IsLikelySystemWorkload(workloads[i]) { continue; }
      filtered := filtered + [workloads[i]];
    }
    assert workloads[..|workloads|] == workloads;
  }

  lemma {:induction false} KeptMembers(ws: seq<WorkloadValue>, includeSystemWorkloads: bool, w: WorkloadValue)
    ensures w in Kept(ws, includeSystemWorkloads) <==> w in ws && Passes(w, includeSystemWorkloads)
  {
    if ws != [] {
      var front := ws[..|ws| - 1];
      KeptMembers(front, includeSystemWorkloads, w);
      assert ws == front + [ws[|ws| - 1]];
    }
  }

  lemma {:induction false} WorkloadsOfMembers(cs: seq<Container>, w: WorkloadValue)
    ensures w in WorkloadsOf(cs) <==> exists c :: c in cs && !IsRoot(c) && w == WorkloadOf(c)
  {
    if cs != [] {
      var front := cs[..|cs| - 1];
      WorkloadsOfMembers(front, w);
      assert cs == front + [cs[|cs| - 1]];
    }
  }

  /** A container that the collection lets through. */
  predicate Survives(c: Container, includeSystemWorkloads: bool) {
    !IsRoot(c) && Passes(WorkloadOf(c), includeSystemWorkloads)
  }

  /** What a collection finds: one workload for each surviving container, whatever order sorting came to. */
  ghost predicate CollectedFrom(ws: seq<WorkloadValue>, response: seq<Container>, includeSystemWorkloads: bool) {
    exists arranged :: Rearranged(arranged, response) && SortedByName(arranged)
                       && ws == Kept(WorkloadsOf(arranged), includeSystemWorkloads)
  }

  method Collect(response: seq<Container>, includeSystemWorkloads: bool) returns (workloads: seq<WorkloadValue>)
    ensures CollectedFrom(workloads, response, includeSystemWorkloads)
  {
    var all, latest, arranged := NormalizeContainers(response);
    workloads := FilterWorkloads(all, includeSystemWorkloads);
  }

  lemma CollectedMembers(ws: seq<WorkloadValue>, response: seq<Container>, includeSystemWorkloads: bool,
                         w: WorkloadValue)
    requires CollectedFrom(ws, response, includeSystemWorkloads)
    ensures w in ws <==> exists c :: c in response && Survives(c, includeSystemWorkloads) && w == WorkloadOf(c)
  {
    var arranged :| Rearranged(arranged, response) && SortedByName(arranged)
                    && ws == Kept(WorkloadsOf(arranged), includeSystemWorkloads);
    KeptMembers(WorkloadsOf(arranged), includeSystemWorkloads, w);
    WorkloadsOfMembers(arranged, w);
    MembersOfRearranged(arranged, response);
  }
}
