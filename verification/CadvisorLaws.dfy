/** What the mapping of containers makes of each container, and in what order. */
module CadvisorLaws {
  import opened Counting
  import opened Text
  import opened Wrappers
  import opened InventoryDomain
  import opened CadvisorMapper

  // One container

  /** A container was last seen at the last of its timestamps, unless that is missing. */
  ghost predicate SeenAt(c: Container, at: int) {
    exists front: seq<int> :: c.timestamps == front + [at] && at != 0
  }

  lemma LastSeenMeans(c: Container, at: int)
    ensures PickLastSeen(c.timestamps) == Some(at) <==> SeenAt(c, at)
  {
    if PickLastSeen(c.timestamps) == Some(at) {
      assert c.timestamps == c.timestamps[..|c.timestamps| - 1] + [at];
    }
  }

  /** The root container has no name or a single slash as its name. */
  lemma RootMeans(c: Container)
    ensures IsRoot(c) <==> Blank(c.name) || IsCutOut(c.name, "/")
  {
    BlankByTrim(c.name);
    TrimMeans(c.name, "/");
  }

  /** What a workload carries of its container, other than id and name. */
  lemma WorkloadCarriesItsContainer(c: Container)
    ensures var w := WorkloadOf(c);
            && IsCutOut(c.image, w.image)
            && (if Blank(c.namespaceName) then w.runtime == "unknown" else IsCutOut(c.namespaceName, w.runtime))
            && w.source == "cadvisor"
            && (forall at :: w.lastSeenAt == Some(at) <==> SeenAt(c, at))
  {
    TrimMeans(c.image, Trim(c.image));
    BlankByTrim(c.namespaceName);
    TrimMeans(c.namespaceName, Trim(c.namespaceName));
    forall at ensures PickLastSeen(c.timestamps) == Some(at) <==> SeenAt(c, at) { LastSeenMeans(c, at); }
  }

  /** Without an image, a container whose namespace is blank or reads `unknown` is taken for part of the
      system. Everything else but the root survives the filter, and with the filter off the root alone falls out. */
  lemma SurvivorsMean(c: Container)
    ensures Survives(c, true) <==> !IsRoot(c)
    ensures Survives(c, false) <==>
              !IsRoot(c) && !(Blank(c.image) && (Blank(c.namespaceName) || SameText(c.namespaceName, "unknown")))
  {
    NormalizeIsStable(c.image);
    NormalizeIsStable(c.namespaceName);
    BlankByTrim(c.image);
    BlankByTrim(c.namespaceName);
    NormalUnknown();
  }

  lemma NormalUnknown()
    ensures Normalize("unknown") == "unknown"
  {
    assert Trim("unknown") == "unknown" && Lower("unknown") == "unknown";
  }

  /** The latest sighting: no container but the root was seen later, and one was seen then, unless none
      was seen after the zero time. */
  lemma LatestSightingMeans(at: int, cs: seq<Container>)
    ensures IsLatestSighting(at, cs) <==>
              && at >= 0 && (forall c, t :: c in cs && !IsRoot(c) && SeenAt(c, t) ==> t <= at)
              && (at == 0 || exists c :: c in cs && !IsRoot(c) && SeenAt(c, at))
  {
    forall c: Container, t ensures PickLastSeen(c.timestamps) == Some(t) <==> SeenAt(c, t) { LastSeenMeans(c, t); }
    if forall c, t :: c in cs && !IsRoot(c) && SeenAt(c, t) ==> t <= at {
      forall c | c in cs && !IsRoot(c) && PickLastSeen(c.timestamps).Some?
        ensures PickLastSeen(c.timestamps).value <= at
      {
        assert SeenAt(c, PickLastSeen(c.timestamps).value);
      }
    }
  }

  // Order

  /** Containers sorted by name have their trimmed names in ascending order, character by character. */
  lemma NamesAscend(cs: seq<Container>)
    ensures SortedByName(cs) <==>
              forall i, j :: 0 <= i < j < |cs| ==>
                Trim(cs[i].name) == Trim(cs[j].name) || ComesFirst(Trim(cs[i].name), Trim(cs[j].name))
  {
    forall i, j | 0 <= i < j < |cs|
      ensures !Less(Trim(cs[j].name), Trim(cs[i].name)) <==>
                Trim(cs[i].name) == Trim(cs[j].name) || ComesFirst(Trim(cs[i].name), Trim(cs[j].name))
    {
      NotLessMeans(Trim(cs[i].name), Trim(cs[j].name));
    }
  }

  lemma NotLessMeans(s: string, t: string)
    ensures !Less(t, s) <==> s == t || ComesFirst(s, t)
  {
    LessIsLexicographic(s, t);
    LessIsTotal(s, t);
    LessIsIrreflexive(s);
    if Less(s, t) && Less(t, s) { LessIsTransitive(s, t, s); }
  }

  /** Workloads follow the order of their containers, and filtering keeps it. */
  lemma {:induction false} ContainersInOrder(a: seq<Container>, b: seq<Container>)
    ensures WorkloadsOf(a + b) == WorkloadsOf(a) + WorkloadsOf(b)
    ensures forall c :: WorkloadsOf([c]) == if IsRoot(c) then [] else [WorkloadOf(c)]
  {
    forall c: Container ensures WorkloadsOf([c]) == if IsRoot(c) then [] else [WorkloadOf(c)] {
      assert [c][..0] == [];
    }
    if b == [] {
      assert a + b == a;
    } else {
      var n := |b| - 1;
      assert (a + b)[..|a + b| - 1] == a + b[..n] && (a + b)[|a + b| - 1] == b[n];
      ContainersInOrder(a, b[..n]);
      ConcatIsAssociative(WorkloadsOf(a), WorkloadsOf(b[..n]), if IsRoot(b[n]) then [] else [WorkloadOf(b[n])]);
    }
  }

  lemma {:induction false} KeptInOrder(a: seq<WorkloadValue>, b: seq<WorkloadValue>, includeSystemWorkloads: bool)
    ensures Kept(a + b, includeSystemWorkloads) == Kept(a, includeSystemWorkloads) + Kept(b, includeSystemWorkloads)
  {
    if b == [] {
      assert a + b == a;
    } else {
      var n := |b| - 1;
      assert (a + b)[..|a + b| - 1] == a + b[..n] && (a + b)[|a + b| - 1] == b[n];
      KeptInOrder(a, b[..n], includeSystemWorkloads);
      ConcatIsAssociative(Kept(a, includeSystemWorkloads), Kept(b[..n], includeSystemWorkloads),
                          if Passes(b[n], includeSystemWorkloads) then [b[n]] else []);
    }
  }
}
