/** The list of enabled components, from the raw configuration to what the service is given. */
module DetectorConfig {
  import opened Counting
  import opened Text
  import opened Wrappers
  import opened DriftDomain

  /** The distinct non-blank values, normalised, in order of first appearance. */
  function FirstAppearances(items: seq<string>): seq<string> {
    if items == [] then []
    else
      var front := FirstAppearances(items[..|items| - 1]);
      var value := Normalize(items[|items| - 1]);
      if value == "" || value in front then front else front + [value]
  }

  method NormalizeComponents(items: seq<string>) returns (normalized: seq<string>)
    ensures normalized == FirstAppearances(items)
  {
    normalized := [];
    var seen: set<string> := {};
    for i := 0 to |items|
      invariant normalized == FirstAppearances(items[..i])
      invariant forall v :: v in seen <==> v in normalized
    {
      assert items[..i + 1][..i] == items[..i];
      var value := Normalize(items[i]);
      if value == "" { continue; }
      if value in seen { continue; }
      seen := seen + {value};
      normalized := normalized + [value];
    }
    assert items[..|items|] == items;
  }

  /** `value` appears before any item that normalises to `other`. */
  predicate AppearsFirst(items: seq<string>, value: string, other: string) {
    exists i :: 0 <= i < |items| && Normalize(items[i]) == value
             && forall k :: 0 <= k <= i ==> Normalize(items[k]) != other
  }

  ghost predicate InOrder(items: seq<string>, r: seq<string>) {
    forall p, q :: 0 <= p < q < |r| ==> AppearsFirst(items, r[p], r[q])
  }

  lemma AppearsFirstStill(items: seq<string>, value: string, other: string)
    requires items != [] && AppearsFirst(items[..|items| - 1], value, other)
    ensures AppearsFirst(items, value, other)
  {
    var front := items[..|items| - 1];
    var i :| 0 <= i < |front| && Normalize(front[i]) == value
             && forall k :: 0 <= k <= i ==> Normalize(front[k]) != other;
    assert Normalize(items[i]) == value;
    forall k | 0 <= k <= i ensures Normalize(items[k]) != other { assert Normalize(front[k]) == Normalize(items[k]); }
  }

  lemma {:induction false} FirstAppearancesMeaning(items: seq<string>)
    ensures Distinct(FirstAppearances(items))
    ensures forall v :: v in FirstAppearances(items)
                        <==> v != "" && exists i :: 0 <= i < |items| && Normalize(items[i]) == v
    ensures InOrder(items, FirstAppearances(items))
  {
    if items != [] {
      var front, last := items[..|items| - 1], |items| - 1;
      FirstAppearancesMeaning(front);
      var r, f := FirstAppearances(items), FirstAppearances(front);
      assert forall i :: 0 <= i < last ==> front[i] == items[i];
      forall v ensures v in r <==> v != "" && exists i :: 0 <= i < |items| && Normalize(items[i]) == v {
        if i :| 0 <= i < |items| && Normalize(items[i]) == v {
          assert i < last ==> Normalize(front[i]) == v;
        }
        if v in f {
          var i :| 0 <= i < |front| && Normalize(front[i]) == v;
          assert Normalize(items[i]) == v;
        }
      }
      forall p, q | 0 <= p < q < |r| ensures AppearsFirst(items, r[p], r[q]) {
        if q < |f| {
          assert InOrder(front, f) && r[p] == f[p] && r[q] == f[q];
          AppearsFirstStill(items, f[p], f[q]);
        } else {
          assert r[p] == f[p] && f[p] in f && r[q] !in f && r[q] != "";
          var i :| 0 <= i < |front| && Normalize(front[i]) == f[p];
          forall k | 0 <= k <= i ensures Normalize(items[k]) != r[q] {
            assert Normalize(front[k]) == Normalize(items[k]);
          }
        }
      }
    }
  }

  datatype ConfigError = NoComponents | UnsupportedComponent(raw: string)

  function Unsupported(items: seq<string>): seq<ConfigError> {
    if items == [] then []
    else
      Unsupported(items[..|items| - 1])
      + if ParseComponent(items[|items| - 1]).None? then [UnsupportedComponent(items[|items| - 1])] else []
  }

  method ValidateComponents(items: seq<string>) returns (errs: seq<ConfigError>)
    ensures errs == (if items == [] then [NoComponents] else []) + Unsupported(items)
    ensures errs == [] <==> items != [] && forall i :: 0 <= i < |items| ==> ParseComponent(items[i]).Some?
    ensures NoComponents in errs <==> items == []
    ensures forall raw :: UnsupportedComponent(raw) in errs <==> raw in items && ParseComponent(raw).None?
  {
    errs := [];
    if |items| == 0 { errs := errs + [NoComponents]; }
    for i := 0 to |items|
      invariant errs == (if items == [] then [NoComponents] else []) + Unsupported(items[..i])
    {
      assert items[..i + 1][..i] == items[..i];
      if ParseComponent(items[i]).None? { errs := errs + [UnsupportedComponent(items[i])]; }
    }
    assert items[..|items|] == items;
    NoneUnsupported(items);
    UnsupportedMembers(items);
  }

  lemma {:induction false} UnsupportedMembers(items: seq<string>)
    ensures NoComponents !in Unsupported(items)
    ensures forall raw :: UnsupportedComponent(raw) in Unsupported(items) <==> raw in items && ParseComponent(raw).None?
  {
    if items != [] {
      UnsupportedMembers(items[..|items| - 1]);
      assert items == items[..|items| - 1] + [items[|items| - 1]];
    }
  }

  lemma {:induction false} NoneUnsupported(items: seq<string>)
    ensures Unsupported(items) == [] <==> forall i :: 0 <= i < |items| ==> ParseComponent(items[i]).Some?
  {
    if items != [] {
      var front := items[..|items| - 1];
      NoneUnsupported(front);
      assert forall i :: 0 <= i < |front| ==> front[i] == items[i];
    }
  }

  /** A configuration that passes gives the service one or both components, each once. */
  lemma ConfiguredComponents(items: seq<string>)
    requires var r := FirstAppearances(items); r != [] && forall i :: 0 <= i < |r| ==> ParseComponent(r[i]).Some?
    ensures var r := FirstAppearances(items);
            && Distinct(r) && 1 <= |r| <= 2
            && forall i :: 0 <= i < |r| ==>
                 ParseComponent(r[i]) == Some(r[i]) && (r[i] == NODE_EXPORTER || r[i] == CADVISOR)
  {
    FirstAppearancesMeaning(items);
    var r := FirstAppearances(items);
    forall i | 0 <= i < |r|
      ensures ParseComponent(r[i]) == Some(r[i]) && (r[i] == NODE_EXPORTER || r[i] == CADVISOR)
    {
      assert r[i] in r;
      var k :| 0 <= k < |items| && Normalize(items[k]) == r[i];
      NormalizeIsStable(items[k]);
    }
    if |r| > 2 {
      TwoOfThreeAgree(r);
      assert false;
    }
  }

  lemma TwoOfThreeAgree(r: seq<string>)
    requires |r| > 2 && forall i :: 0 <= i < |r| ==> r[i] == NODE_EXPORTER || r[i] == CADVISOR
    ensures r[0] == r[1] || r[0] == r[2] || r[1] == r[2]
  {
  }
}
