/** The connector resource's reconciliation core: JSON normalisation, the
    one-sided recursive comparison of the desired tree against the current
    one, the symmetric change report, and the create and update handlers'
    decisions about which remote calls to make.

    Go map iteration order is unspecified, so the comparison is specified by
    the multiset of changed paths it reports, and the report by the set of
    lines it writes. */
module ResourceConnector {
  import opened Values
  import Connector

  // ---------------------------------------------------------------------
  // normalizeJSON
  // ---------------------------------------------------------------------

  /** `normalizeJSON` applied to a value that is nil or a string. */
  function NormalizeJSON(v: Option<string>, canon: Canon): (r: string)
    ensures v.None? || v == Some("") ==> r == ""
    ensures v.Some? && v.value != "" && canon(v.value).None? ==> r == v.value
    ensures v.Some? && v.value != "" && canon(v.value).Some? ==> r == canon(v.value).value
  {
    match v
    case None => ""
    case Some(s) =>
      if s == "" then ""
      else match canon(s)
        case None => s
        case Some(c) => c
  }

  /** Re-parsing a canonical serialisation gives it back. */
  ghost predicate CanonStableOn(canon: Canon, s: string)
  {
    canon(s).Some? ==> canon(canon(s).value) == canon(s)
  }

  lemma NormalizeIdempotent(v: Option<string>, canon: Canon)
    requires v.Some? ==> CanonStableOn(canon, v.value)
    ensures NormalizeJSON(Some(NormalizeJSON(v, canon)), canon) == NormalizeJSON(v, canon)
  {
  }

  // ---------------------------------------------------------------------
  // containsString
  // ---------------------------------------------------------------------

  method ContainsString(slice: seq<string>, s: string) returns (found: bool)
    ensures found <==> s in slice
  {
    var i := 0;
    while i < |slice|
      invariant 0 <= i <= |slice|
      invariant s !in slice[..i]
    {
      if slice[i] == s {
        return true;
      }
      i := i + 1;
    }
    assert slice[..i] == slice;
    return false;
  }

  // ---------------------------------------------------------------------
  // deepCompare: specification
  // ---------------------------------------------------------------------

  /** Whether two values at the same key differ, when they are not both maps:
      two strings that both parse as JSON are compared by their canonical
      forms, everything else by deep equality. */
  function LeafDiffers(current: Val, desired: Val, canon: Canon): bool
  {
    if desired.Str? && current.Str? && canon(desired.s).Some? && canon(current.s).Some? then
      canon(desired.s).value != canon(current.s).value
    else
      current != desired
  }

  /** The paths `deepCompare` reports, with multiplicity. */
  ghost function Changes(cur: Tree, des: Tree, ign: seq<string>, canon: Canon): multiset<string>
    decreases Map(des), 2
  {
    ChangesOver(cur, des, ign, canon, des.Keys)
  }

  /** The paths reported for the desired keys in `keys`, in some order. */
  ghost function ChangesOver(cur: Tree, des: Tree, ign: seq<string>, canon: Canon,
                             keys: set<string>): multiset<string>
    requires keys <= des.Keys
    decreases Map(des), 1, keys
  {
    if keys == {} then multiset{}
    else
      var k :| k in keys;
      ChangesOver(cur, des, ign, canon, keys - {k}) + KeyChanges(cur, des, ign, canon, k)
  }

  /** The paths reported while visiting desired key `k`. */
  ghost function KeyChanges(cur: Tree, des: Tree, ign: seq<string>, canon: Canon, k: string): multiset<string>
    requires k in des
    decreases Map(des), 0
  {
    if k in ign then multiset{}
    else if k !in cur then multiset{k}
    else if des[k].Map? && cur[k].Map? then Prefixed(k, Changes(cur[k].m, des[k].m, ign, canon))
    else if LeafDiffers(cur[k], des[k], canon) then multiset{k}
    else multiset{}
  }

  /** Each nested path `q` becomes `k.q`. */
  ghost function Prefixed(k: string, ms: multiset<string>): multiset<string>
    decreases |ms|
  {
    if ms == multiset{} then multiset{}
    else
      var q :| q in ms;
      Prefixed(k, ms - multiset{q}) + multiset{k + "." + q}
  }

  /** A dotted path that follows keys of `des`, none of them ignored, and
      enters only values of `des` that are maps. */
  ghost predicate DescendsThrough(des: Tree, ign: seq<string>, p: string)
    decreases Map(des)
  {
    exists k :: k in des && k !in ign &&
      (p == k ||
       (des[k].Map? && |k| + 1 <= |p| && p[..|k| + 1] == k + "." &&
        DescendsThrough(des[k].m, ign, p[|k| + 1..])))
  }

  // ---------------------------------------------------------------------
  // deepCompare: the fold does not depend on the order of the keys
  // ---------------------------------------------------------------------

  lemma {:induction false} ChangesOverSplit(cur: Tree, des: Tree, ign: seq<string>, canon: Canon,
                                            keys: set<string>, k: string)
    requires keys <= des.Keys && k in keys
    ensures ChangesOver(cur, des, ign, canon, keys)
            == ChangesOver(cur, des, ign, canon, keys - {k}) + KeyChanges(cur, des, ign, canon, k)
    decreases |keys|
  {
    var j :| j in keys && ChangesOver(cur, des, ign, canon, keys)
                          == ChangesOver(cur, des, ign, canon, keys - {j}) + KeyChanges(cur, des, ign, canon, j);
    if j != k {
      ChangesOverSplit(cur, des, ign, canon, keys - {j}, k);
      ChangesOverSplit(cur, des, ign, canon, keys - {k}, j);
      assert keys - {j} - {k} == keys - {k} - {j};
    }
  }

  lemma {:induction false} PrefixedSplit(k: string, ms: multiset<string>, q: string)
    requires q in ms
    ensures Prefixed(k, ms) == Prefixed(k, ms - multiset{q}) + multiset{k + "." + q}
    decreases |ms|
  {
    var r :| r in ms && Prefixed(k, ms) == Prefixed(k, ms - multiset{r}) + multiset{k + "." + r};
    if r != q {
      var withoutR, withoutQ := ms - multiset{r}, ms - multiset{q};
      assert |withoutR| == |ms| - 1 && |withoutQ| == |ms| - 1;
      assert q in withoutR && r in withoutQ;
      assert withoutQ - multiset{r} == withoutR - multiset{q};
      PrefixedSplit(k, withoutR, q);
      PrefixedSplit(k, withoutQ, r);
    }
  }

  lemma {:induction false} PrefixedMembers(k: string, ms: multiset<string>, p: string)
    ensures p in Prefixed(k, ms) <==> exists q :: q in ms && p == k + "." + q
    decreases |ms|
  {
    if ms != multiset{} {
      var r :| r in ms;
      PrefixedSplit(k, ms, r);
      PrefixedMembers(k, ms - multiset{r}, p);
      if p in Prefixed(k, ms) && p != k + "." + r {
        var q :| q in ms - multiset{r} && p == k + "." + q;
        assert q in ms;
      }
      if exists q :: q in ms && p == k + "." + q {
        var q :| q in ms && p == k + "." + q;
        if q != r {
          assert q in ms - multiset{r};
        }
      }
    }
  }

  lemma {:induction false} ChangesOverMember(cur: Tree, des: Tree, ign: seq<string>, canon: Canon,
                                             keys: set<string>, p: string)
    requires keys <= des.Keys
    requires p in ChangesOver(cur, des, ign, canon, keys)
    ensures exists k :: k in keys && p in KeyChanges(cur, des, ign, canon, k)
    decreases |keys|
  {
    var k :| k in keys;
    ChangesOverSplit(cur, des, ign, canon, keys, k);
    if p !in KeyChanges(cur, des, ign, canon, k) {
      ChangesOverMember(cur, des, ign, canon, keys - {k}, p);
    }
  }

  lemma {:induction false} ChangesOverNone(cur: Tree, des: Tree, ign: seq<string>, canon: Canon,
                                           keys: set<string>)
    requires keys <= des.Keys
    requires forall k :: k in keys ==> KeyChanges(cur, des, ign, canon, k) == multiset{}
    ensures ChangesOver(cur, des, ign, canon, keys) == multiset{}
    decreases |keys|
  {
    if keys != {} {
      var k :| k in keys;
      ChangesOverSplit(cur, des, ign, canon, keys, k);
      ChangesOverNone(cur, des, ign, canon, keys - {k});
    }
  }

  /** The whole comparison is the changes of any one desired key plus those of the rest. */
  lemma KeyContribution(cur: Tree, des: Tree, ign: seq<string>, canon: Canon, k: string)
    requires k in des
    ensures Changes(cur, des, ign, canon)
            == ChangesOver(cur, des, ign, canon, des.Keys - {k}) + KeyChanges(cur, des, ign, canon, k)
  {
    ChangesOverSplit(cur, des, ign, canon, des.Keys, k);
  }

  // ---------------------------------------------------------------------
  // deepCompare: properties
  // ---------------------------------------------------------------------

  /** Every reported path is a dotted path through keys of `desired` that are
      not ignored, at any depth: keys present only in `current` and ignored
      keys are never reported. */
  lemma {:induction false} ReportedPathsDescendThroughDesired(cur: Tree, des: Tree, ign: seq<string>,
                                                              canon: Canon, p: string)
    requires p in Changes(cur, des, ign, canon)
    ensures DescendsThrough(des, ign, p)
    decreases Map(des)
  {
    ChangesOverMember(cur, des, ign, canon, des.Keys, p);
    var k :| k in des.Keys && p in KeyChanges(cur, des, ign, canon, k);
    if k in cur && des[k].Map? && cur[k].Map? {
      PrefixedMembers(k, Changes(cur[k].m, des[k].m, ign, canon), p);
      var q :| q in Changes(cur[k].m, des[k].m, ign, canon) && p == k + "." + q;
      ReportedPathsDescendThroughDesired(cur[k].m, des[k].m, ign, canon, q);
      assert p[..|k| + 1] == k + "." && p[|k| + 1..] == q;
    }
  }

  /** A desired key absent from `current` is reported by its bare name. */
  lemma MissingKeyReported(cur: Tree, des: Tree, ign: seq<string>, canon: Canon, k: string)
    requires k in des && k !in ign && k !in cur
    ensures k in Changes(cur, des, ign, canon)
  {
    KeyContribution(cur, des, ign, canon, k);
  }

  /** An ignored key contributes nothing, whatever its values. */
  lemma IgnoredKeySkipped(cur: Tree, des: Tree, ign: seq<string>, canon: Canon, k: string)
    requires k in des && k in ign
    ensures Changes(cur, des, ign, canon) == ChangesOver(cur, des, ign, canon, des.Keys - {k})
  {
    KeyContribution(cur, des, ign, canon, k);
  }

  /** When both values at `k` are maps, the key contributes exactly its nested
      changes, each as `k.q`, and never `k` itself. */
  lemma NestedChangesPrefixed(cur: Tree, des: Tree, ign: seq<string>, canon: Canon, k: string)
    requires k in des && k !in ign && k in cur && des[k].Map? && cur[k].Map?
    ensures var nested := Changes(cur[k].m, des[k].m, ign, canon);
      && Changes(cur, des, ign, canon) == ChangesOver(cur, des, ign, canon, des.Keys - {k}) + Prefixed(k, nested)
      && (forall q :: q in nested ==> k + "." + q in Changes(cur, des, ign, canon))
      && k !in Prefixed(k, nested)
  {
    KeyContribution(cur, des, ign, canon, k);
    var nested := Changes(cur[k].m, des[k].m, ign, canon);
    forall q | q in nested
      ensures k + "." + q in Changes(cur, des, ign, canon)
    {
      PrefixedMembers(k, nested, k + "." + q);
    }
    PrefixedMembers(k, nested, k);
  }

  /** A map on one side and a non-map on the other is a change of `k`. */
  lemma MapAgainstNonMapReported(cur: Tree, des: Tree, ign: seq<string>, canon: Canon, k: string)
    requires k in des && k !in ign && k in cur && des[k].Map? != cur[k].Map?
    ensures Changes(cur, des, ign, canon)
            == ChangesOver(cur, des, ign, canon, des.Keys - {k}) + multiset{k}
  {
    KeyContribution(cur, des, ign, canon, k);
  }

  /** Two strings that both parse as JSON are a change exactly when their
      canonical forms differ: reordered keys or whitespace are no change. */
  lemma JsonStringsCompareCanonically(cur: Tree, des: Tree, ign: seq<string>, canon: Canon, k: string)
    requires k in des && k !in ign && k in cur && des[k].Str? && cur[k].Str?
    requires canon(des[k].s).Some? && canon(cur[k].s).Some?
    ensures Changes(cur, des, ign, canon)
            == ChangesOver(cur, des, ign, canon, des.Keys - {k})
               + (if canon(des[k].s) == canon(cur[k].s) then multiset{} else multiset{k})
  {
    KeyContribution(cur, des, ign, canon, k);
  }

  /** If either string does not parse, the raw texts decide. */
  lemma UnparsedStringsCompareRaw(cur: Tree, des: Tree, ign: seq<string>, canon: Canon, k: string)
    requires k in des && k !in ign && k in cur && des[k].Str? && cur[k].Str?
    requires canon(des[k].s).None? || canon(cur[k].s).None?
    ensures Changes(cur, des, ign, canon)
            == ChangesOver(cur, des, ign, canon, des.Keys - {k})
               + (if des[k].s == cur[k].s then multiset{} else multiset{k})
  {
    KeyContribution(cur, des, ign, canon, k);
  }

  /** A tree compared with itself reports nothing, at any depth. */
  lemma {:induction false} SelfComparisonEqual(t: Tree, ign: seq<string>, canon: Canon)
    ensures Changes(t, t, ign, canon) == multiset{}
    decreases Map(t)
  {
    forall k | k in t.Keys
      ensures KeyChanges(t, t, ign, canon, k) == multiset{}
    {
      if k !in ign && t[k].Map? {
        SelfComparisonEqual(t[k].m, ign, canon);
      }
    }
    ChangesOverNone(t, t, ign, canon, t.Keys);
  }

  /** An ignored field masks a difference: `{id: "1", name: "n"}` against
      `{id: "2", name: "n"}` with `id` ignored reports nothing. */
  lemma IgnoredIdMasksDifference(canon: Canon)
    ensures Changes(map["id" := Str("1"), "name" := Str("n")], map["id" := Str("2"), "name" := Str("n")],
                    ["id"], canon) == multiset{}
  {
    var cur := map["id" := Str("1"), "name" := Str("n")];
    var des := map["id" := Str("2"), "name" := Str("n")];
    assert des.Keys == {"id", "name"};
    ChangesOverNone(cur, des, ["id"], canon, des.Keys);
  }

  lemma PrefixedSingle(k: string, q: string)
    ensures Prefixed(k, multiset{q}) == multiset{k + "." + q}
  {
    PrefixedSplit(k, multiset{q}, q);
    assert multiset{q} - multiset{q} == multiset{};
  }

  /** `{x: 1}` against `{x: 1, y: 2}` reports exactly `y`. */
  lemma AddedLeafReported(canon: Canon)
    ensures Changes(map["x" := Other("1")], map["x" := Other("1"), "y" := Other("2")], [], canon)
            == multiset{"y"}
  {
    var cur, des := map["x" := Other("1")], map["x" := Other("1"), "y" := Other("2")];
    assert des.Keys - {"y"} == {"x"};
    KeyContribution(cur, des, [], canon, "y");
    ChangesOverNone(cur, des, [], canon, {"x"});
  }

  /** A key added inside a nested map is reported by its dotted path:
      `{a: {x: 1}}` against `{a: {x: 1, y: 2}}` reports exactly `a.y`. */
  lemma NestedAdditionReportedAsPath(canon: Canon)
    ensures Changes(map["a" := Map(map["x" := Other("1")])],
                    map["a" := Map(map["x" := Other("1"), "y" := Other("2")])],
                    [], canon) == multiset{"a.y"}
  {
    var innerCur, innerDes := map["x" := Other("1")], map["x" := Other("1"), "y" := Other("2")];
    var cur, des := map["a" := Map(innerCur)], map["a" := Map(innerDes)];
    AddedLeafReported(canon);
    PrefixedSingle("a", "y");
    assert "a" !in [] && "a" in cur && des["a"].Map? && cur["a"].Map?;
    assert des["a"].m == innerDes && cur["a"].m == innerCur;
    assert KeyChanges(cur, des, [], canon, "a") == Prefixed("a", Changes(innerCur, innerDes, [], canon));
    assert "a" + "." + "y" == "a.y";
    assert des.Keys - {"a"} == {};
    KeyContribution(cur, des, [], canon, "a");
  }

  lemma {:induction false} ChangesOverIgnoresOtherCurrentKeys(cur: Tree, cur': Tree, des: Tree, ign: seq<string>,
                                                              canon: Canon, keys: set<string>)
    requires keys <= des.Keys
    requires forall k :: k in keys ==> (k in cur <==> k in cur') && (k in cur ==> cur[k] == cur'[k])
    ensures ChangesOver(cur, des, ign, canon, keys) == ChangesOver(cur', des, ign, canon, keys)
    decreases |keys|
  {
    if keys != {} {
      var k :| k in keys;
      ChangesOverSplit(cur, des, ign, canon, keys, k);
      ChangesOverSplit(cur', des, ign, canon, keys, k);
      ChangesOverIgnoresOtherCurrentKeys(cur, cur', des, ign, canon, keys - {k});
    }
  }

  /** The comparison is one-sided: fields of `current` that `desired` does
      not mention have no influence on it. */
  lemma CurrentOnlyKeysIrrelevant(cur: Tree, des: Tree, ign: seq<string>, canon: Canon)
    ensures Changes(cur, des, ign, canon)
            == Changes(map k | k in cur && k in des :: cur[k], des, ign, canon)
  {
    ChangesOverIgnoresOtherCurrentKeys(cur, map k | k in cur && k in des :: cur[k], des, ign, canon, des.Keys);
  }

  // ---------------------------------------------------------------------
  // deepCompare
  // ---------------------------------------------------------------------

  lemma PrefixedExtend(k: string, s: seq<string>, j: nat)
    requires j < |s|
    ensures Prefixed(k, multiset(s[..j + 1])) == Prefixed(k, multiset(s[..j])) + multiset{k + "." + s[j]}
  {
    var done, next := multiset(s[..j]), multiset(s[..j + 1]);
    assert s[..j + 1] == s[..j] + [s[j]];
    assert next - multiset{s[j]} == done;
    PrefixedSplit(k, next, s[j]);
  }

  /** The inner loop of `deepCompare` that reports each nested change `q` as `k.q`. */
  method AppendPrefixed(changedFields: seq<string>, k: string, nestedChanges: seq<string>)
    returns (extended: seq<string>)
    ensures multiset(extended) == multiset(changedFields) + Prefixed(k, multiset(nestedChanges))
  {
    extended := changedFields;
    var j := 0;
    assert multiset(nestedChanges[..0]) == multiset{};
    while j < |nestedChanges|
      invariant 0 <= j <= |nestedChanges|
      invariant multiset(extended) == multiset(changedFields) + Prefixed(k, multiset(nestedChanges[..j]))
    {
      PrefixedExtend(k, nestedChanges, j);
      extended := extended + [k + "." + nestedChanges[j]];
      j := j + 1;
    }
    assert nestedChanges[..j] == nestedChanges;
  }

  /** `deepCompare`: the fields of `desired` (not ignored) whose value in
      `current` is missing or different, nested changes as dotted paths. */
  method DeepCompare(current: Tree, desired: Tree, ignoredFields: seq<string>, canon: Canon)
    returns (equal: bool, changedFields: seq<string>)
    ensures multiset(changedFields) == Changes(current, desired, ignoredFields, canon)
    ensures equal <==> changedFields == []
    ensures equal <==> Changes(current, desired, ignoredFields, canon) == multiset{}
    decreases Map(desired), 1
  {
    changedFields := [];
    var remaining := desired.Keys;
    while remaining != {}
      invariant remaining <= desired.Keys
      invariant multiset(changedFields) + ChangesOver(current, desired, ignoredFields, canon, remaining)
                == Changes(current, desired, ignoredFields, canon)
      decreases remaining
    {
      var k :| k in remaining;
      ChangesOverSplit(current, desired, ignoredFields, canon, remaining, k);
      remaining := remaining - {k};
      changedFields := VisitKey(current, desired, ignoredFields, canon, k, changedFields);
    }
    equal := |changedFields| == 0;
  }

  /** One iteration of `deepCompare`'s loop: what visiting desired key `k`
      appends to `changedFields`. */
  method VisitKey(current: Tree, desired: Tree, ignoredFields: seq<string>, canon: Canon,
                  k: string, changedFields: seq<string>)
    returns (extended: seq<string>)
    requires k in desired
    ensures multiset(extended) == multiset(changedFields) + KeyChanges(current, desired, ignoredFields, canon, k)
    decreases Map(desired), 0
  {
    extended := changedFields;
    var desiredVal := desired[k];

    var skip := ContainsString(ignoredFields, k);
    if skip {
      return;
    }

    if k !in current {
      extended := extended + [k];
      return;
    }
    var currentVal := current[k];

    if desiredVal.Map? && currentVal.Map? {
      var nestedEqual, nestedChanges := DeepCompare(currentVal.m, desiredVal.m, ignoredFields, canon);
      if !nestedEqual {
        extended := AppendPrefixed(extended, k, nestedChanges);
      }
      assert KeyChanges(current, desired, ignoredFields, canon, k) == Prefixed(k, multiset(nestedChanges));
      return;
    }

    if desiredVal.Str? && currentVal.Str? {
      var desiredJSON, currentJSON := canon(desiredVal.s), canon(currentVal.s);
      if desiredJSON.Some? && currentJSON.Some? {
        if desiredJSON.value != currentJSON.value {
          extended := extended + [k];
        }
        return;
      }
    }

    if currentVal != desiredVal {
      extended := extended + [k];
    }
  }


  // ---------------------------------------------------------------------
  // generateDiff
  // ---------------------------------------------------------------------

  /** One line of the change report. */
  datatype DiffLine =
    | Added(key: string, value: Val)
    | Changed(key: string, before: Val, after: Val)
    | Removed(key: string, value: Val)

  const DiffHeader: string := "Changes:\n"

  /** The text of a line; `show` stands for `%v` formatting. */
  function Render(line: DiffLine, show: Val -> string): string
  {
    match line
    case Added(k, v) => "+ " + k + ": " + show(v) + " (added)\n"
    case Changed(k, b, a) => "~ " + k + ": " + show(b) + " -> " + show(a) + "\n"
    case Removed(k, v) => "- " + k + ": " + show(v) + " (removed)\n"
  }

  function RenderLines(lines: seq<DiffLine>, show: Val -> string): string
  {
    if lines == [] then ""
    else RenderLines(lines[..|lines| - 1], show) + Render(lines[|lines| - 1], show)
  }

  /** Writing one more line after the header: the text grows by that line,
      the set of lines by that element. */
  lemma AppendLine(lines: seq<DiffLine>, line: DiffLine, show: Val -> string)
    ensures RenderLines(lines + [line], show) == RenderLines(lines, show) + Render(line, show)
    ensures DiffHeader + RenderLines(lines + [line], show)
            == (DiffHeader + RenderLines(lines, show)) + Render(line, show)
    ensures (set l | l in lines + [line]) == (set l | l in lines) + {line}
  {
    assert (lines + [line])[..|lines|] == lines;
  }

  /** The `+` and `~` lines owed to the desired keys in `keys`. */
  ghost function AddedOrChanged(cur: Tree, des: Tree, keys: set<string>): set<DiffLine>
  {
    (set k | k in keys && k in des && k !in cur :: Added(k, des[k]))
    + (set k | k in keys && k in des && k in cur && cur[k] != des[k] :: Changed(k, cur[k], des[k]))
  }

  /** The `-` lines owed to the current keys in `keys`. */
  ghost function RemovedLines(cur: Tree, des: Tree, keys: set<string>): set<DiffLine>
  {
    set k | k in keys && k in cur && k !in des :: Removed(k, cur[k])
  }

  /** The symmetric report: one `+` line per desired-only key, one `~` line per
      shared key whose values differ, one `-` line per current-only key. */
  ghost function ExpectedDiff(cur: Tree, des: Tree): set<DiffLine>
  {
    AddedOrChanged(cur, des, des.Keys) + RemovedLines(cur, des, cur.Keys)
  }

  lemma AddedOrChangedStep(cur: Tree, des: Tree, done: set<string>, k: string)
    requires k in des
    ensures AddedOrChanged(cur, des, done + {k})
            == AddedOrChanged(cur, des, done)
               + (if k !in cur then {Added(k, des[k])}
                  else if cur[k] != des[k] then {Changed(k, cur[k], des[k])}
                  else {})
  {
  }

  lemma RemovedLinesStep(cur: Tree, des: Tree, done: set<string>, k: string)
    requires k in cur
    ensures RemovedLines(cur, des, done + {k})
            == RemovedLines(cur, des, done) + (if k !in des then {Removed(k, cur[k])} else {})
  {
  }

  lemma IdenticalTreesNoLines(t: Tree)
    ensures ExpectedDiff(t, t) == {}
  {
  }

  predicate Distinct(lines: seq<DiffLine>)
  {
    forall i, j :: 0 <= i < j < |lines| ==> lines[i] != lines[j]
  }

  /** A line for a key no earlier line has is new. */
  lemma FreshKeyLine(lines: seq<DiffLine>, line: DiffLine, pending: set<string>)
    requires Distinct(lines)
    requires forall i :: 0 <= i < |lines| ==> lines[i].key !in pending
    requires line.key in pending
    ensures Distinct(lines + [line])
  {
  }

  /** The first loop of `generateDiff`: a `+` or `~` line per desired key. */
  method WriteDesiredSide(current: Tree, desired: Tree, show: Val -> string)
    returns (lines: seq<DiffLine>, diff: string)
    ensures diff == DiffHeader + RenderLines(lines, show)
    ensures (set l | l in lines) == AddedOrChanged(current, desired, desired.Keys)
    ensures forall i :: 0 <= i < |lines| ==> !lines[i].Removed?
    ensures Distinct(lines)
  {
    lines, diff := [], DiffHeader;
    var pending := desired.Keys;
    while pending != {}
      invariant pending <= desired.Keys
      invariant diff == DiffHeader + RenderLines(lines, show)
      invariant (set l | l in lines) == AddedOrChanged(current, desired, desired.Keys - pending)
      invariant forall i :: 0 <= i < |lines| ==> !lines[i].Removed? && lines[i].key !in pending
      invariant Distinct(lines)
      decreases pending
    {
      var k :| k in pending;
      ghost var done, visiting := desired.Keys - pending, pending;
      pending := pending - {k};
      assert desired.Keys - pending == done + {k};
      var desiredVal := desired[k];
      AddedOrChangedStep(current, desired, done, k);
      if k !in current {
        var line := Added(k, desiredVal);
        AppendLine(lines, line, show);
        FreshKeyLine(lines, line, visiting);
        lines, diff := lines + [line], diff + Render(line, show);
        continue;
      }
      if current[k] != desiredVal {
        var line := Changed(k, current[k], desiredVal);
        AppendLine(lines, line, show);
        FreshKeyLine(lines, line, visiting);
        lines, diff := lines + [line], diff + Render(line, show);
      }
    }
  }

  /** The second loop of `generateDiff`: a `-` line per current-only key.
      `text` is what it appends to the builder. */
  method WriteCurrentSide(current: Tree, desired: Tree, show: Val -> string)
    returns (removed: seq<DiffLine>, text: string)
    ensures text == RenderLines(removed, show)
    ensures forall i :: 0 <= i < |removed| ==> removed[i].Removed?
    ensures (set l | l in removed) == RemovedLines(current, desired, current.Keys)
    ensures Distinct(removed)
  {
    removed, text := [], "";
    var pendingCurrent := current.Keys;
    while pendingCurrent != {}
      invariant pendingCurrent <= current.Keys
      invariant text == RenderLines(removed, show)
      invariant (set l | l in removed) == RemovedLines(current, desired, current.Keys - pendingCurrent)
      invariant forall i :: 0 <= i < |removed| ==> removed[i].Removed? && removed[i].key !in pendingCurrent
      invariant Distinct(removed)
      decreases pendingCurrent
    {
      var k :| k in pendingCurrent;
      ghost var done, visiting := current.Keys - pendingCurrent, pendingCurrent;
      pendingCurrent := pendingCurrent - {k};
      assert current.Keys - pendingCurrent == done + {k};
      RemovedLinesStep(current, desired, done, k);
      if k !in desired {
        var line := Removed(k, current[k]);
        AppendLine(removed, line, show);
        FreshKeyLine(removed, line, visiting);
        removed, text := removed + [line], text + Render(line, show);
      }
    }
    assert current.Keys - pendingCurrent == current.Keys;
  }

  /** Rendering two runs of lines one after the other. */
  lemma {:induction false} RenderConcat(front: seq<DiffLine>, back: seq<DiffLine>, show: Val -> string)
    ensures RenderLines(front + back, show) == RenderLines(front, show) + RenderLines(back, show)
    decreases |back|
  {
    if back != [] {
      var init, last := back[..|back| - 1], back[|back| - 1];
      RenderConcat(front, init, show);
      assert (front + back)[..|front + back| - 1] == front + init;
      assert (front + back)[|front + back| - 1] == last;
      ConcatAssoc(RenderLines(front, show), RenderLines(init, show), Render(last, show));
    } else {
      assert front + back == front;
    }
  }

  lemma NothingListed(lines: seq<DiffLine>)
    ensures (set l | l in lines) == {} <==> lines == []
  {
    if lines != [] {
      var listed := set l | l in lines;
      assert lines[0] in listed;
    }
  }

  /** `{a: 1}` against `{a: 2, c: 3}`: a `~` line for `a`, a `+` line for
      `c`, and nothing else. */
  lemma ChangedAndAddedExample()
    ensures ExpectedDiff(map["a" := Other("1")], map["a" := Other("2"), "c" := Other("3")])
            == {Changed("a", Other("1"), Other("2")), Added("c", Other("3"))}
  {
    var cur, des := map["a" := Other("1")], map["a" := Other("2"), "c" := Other("3")];
    assert des.Keys == {"a", "c"};
    AddedOrChangedStep(cur, des, {"a"}, "c");
    AddedOrChangedStep(cur, des, {}, "a");
    assert AddedOrChanged(cur, des, {}) == {};
    assert {"a"} + {"c"} == des.Keys;
    assert RemovedLines(cur, des, cur.Keys) == {};
  }

  lemma ConcatAssoc(a: string, b: string, c: string)
    ensures (a + b) + c == a + (b + c)
  {
  }

  /** The `+`/`~` lines followed by the `-` lines: all distinct, `-` last. */
  lemma RemovedAfterTheRest(front: seq<DiffLine>, back: seq<DiffLine>)
    requires Distinct(front) && Distinct(back)
    requires forall i :: 0 <= i < |front| ==> !front[i].Removed?
    requires forall i :: 0 <= i < |back| ==> back[i].Removed?
    ensures (set l | l in front + back) == (set l | l in front) + (set l | l in back)
    ensures Distinct(front + back)
    ensures forall i, j :: 0 <= i < j < |front + back| && (front + back)[i].Removed? ==> (front + back)[j].Removed?
  {
    var lines := front + back;
    assert forall i :: 0 <= i < |front| ==> lines[i] == front[i];
    assert forall i :: |front| <= i < |lines| ==> lines[i] == back[i - |front|];
  }

  /** `generateDiff`: the report text and, in the order written, its lines. */
  method GenerateDiff(current: Tree, desired: Tree, show: Val -> string)
    returns (lines: seq<DiffLine>, diff: string)
    ensures diff == DiffHeader + RenderLines(lines, show)
    ensures |diff| >= |DiffHeader| && diff[..|DiffHeader|] == DiffHeader
    ensures (set l | l in lines) == ExpectedDiff(current, desired)
    ensures Distinct(lines)
    // every `-` line is written after every `+` and `~` line
    ensures forall i, j :: 0 <= i < j < |lines| && lines[i].Removed? ==> lines[j].Removed?
    ensures current == desired ==> diff == DiffHeader
  {
    var first, firstDiff := WriteDesiredSide(current, desired, show);
    var removed, text := WriteCurrentSide(current, desired, show);
    lines, diff := first + removed, firstDiff + text;
    RenderConcat(first, removed, show);
    ConcatAssoc(DiffHeader, RenderLines(first, show), RenderLines(removed, show));
    RemovedAfterTheRest(first, removed);
    if current == desired {
      IdenticalTreesNoLines(current);
      NothingListed(lines);
      assert DiffHeader + RenderLines(lines, show) == DiffHeader + "";
    }
  }

  // ---------------------------------------------------------------------
  // resourceConnectorUpdate and resourceConnectorCreate
  // ---------------------------------------------------------------------

  /** Server-managed fields left out of the update decision. */
  const IgnoredFields: seq<string> := ["id", "status", "lastActivity", "outpost", "type", "config"]

  /** A remote call, in the order the handlers make them. */
  datatype Call =
    | CallTest(variables: Tree)
    | CallCreate(variables: Tree)
    | CallGet(id: string)
    | CallUpdate(variables: Tree)

  /** `auth_params` is parsed only when it changed; otherwise it stays nil. */
  function ParseAuthParams(changed: bool, text: string, decode: Decode): Result<Option<Tree>>
  {
    if changed then decode(text) else Ok(None)
  }

  /** `extra_config` is parsed only when it changed and is non-empty. */
  function ParseExtraConfig(changed: bool, text: string, decode: Decode): Result<Option<Tree>>
  {
    if changed && text != "" then decode(text) else Ok(None)
  }

  /** The tree the update compares against the current connector: the name,
      and each of `authParams`/`extraConfig` from the configuration when it
      was parsed, otherwise copied from `current` when it is there. */
  function DesiredState(name: string, authParams: Option<Tree>, extraConfig: Option<Tree>,
                        current: Tree): (desired: Tree)
    ensures "name" in desired && desired["name"] == Str(name)
    ensures "authParams" in desired <==> authParams.Some? || "authParams" in current
    ensures "extraConfig" in desired <==> extraConfig.Some? || "extraConfig" in current
    ensures authParams.Some? ==> desired["authParams"] == Map(authParams.value)
    ensures authParams.None? && "authParams" in current ==> desired["authParams"] == current["authParams"]
    ensures extraConfig.Some? ==> desired["extraConfig"] == Map(extraConfig.value)
    ensures extraConfig.None? && "extraConfig" in current ==> desired["extraConfig"] == current["extraConfig"]
    ensures desired.Keys <= {"name", "authParams", "extraConfig"}
  {
    var desired := map["name" := Str(name)];
    var desired :=
      if authParams.Some? then desired["authParams" := Map(authParams.value)]
      else if "authParams" in current then desired["authParams" := current["authParams"]]
      else desired;
    if extraConfig.Some? then desired["extraConfig" := Map(extraConfig.value)]
    else if "extraConfig" in current then desired["extraConfig" := current["extraConfig"]]
    else desired
  }

  /** With neither JSON setting changed and the name as stored, the update
      finds nothing to do: the copied fields never count as changes. */
  lemma UntouchedSettingsNeedNoUpdate(current: Tree, name: string, canon: Canon)
    requires "name" in current && current["name"] == Str(name)
    ensures Changes(current, DesiredState(name, None, None, current), IgnoredFields, canon) == multiset{}
  {
    var desired := DesiredState(name, None, None, current);
    forall k | k in desired.Keys
      ensures KeyChanges(current, desired, IgnoredFields, canon, k) == multiset{}
    {
      assert k in current && desired[k] == current[k];
      if k !in IgnoredFields && desired[k].Map? {
        SelfComparisonEqual(current[k].m, IgnoredFields, canon);
      }
    }
    ChangesOverNone(current, desired, IgnoredFields, canon, desired.Keys);
  }

  /** A name that compares as different from the stored one triggers the update. */
  lemma RenameNeedsUpdate(current: Tree, name: string, authParams: Option<Tree>,
                          extraConfig: Option<Tree>, canon: Canon)
    requires "name" !in current || LeafDiffers(current["name"], Str(name), canon)
    ensures "name" in Changes(current, DesiredState(name, authParams, extraConfig, current), IgnoredFields, canon)
  {
    var desired := DesiredState(name, authParams, extraConfig, current);
    assert "name" !in IgnoredFields;
    KeyContribution(current, desired, IgnoredFields, canon, "name");
  }

  /** Emptying `extra_config` while keeping the name and `auth_params` sends
      no update: an empty text is never parsed, so the stored value is copied
      into the desired tree and compares equal. */
  lemma ClearedExtraConfigNotSent(current: Tree, name: string, authText: string,
                                  decode: Decode, canon: Canon)
    requires "name" in current && current["name"] == Str(name)
    ensures ParseExtraConfig(true, "", decode) == Ok(None)
    ensures Changes(current, DesiredState(name, ParseAuthParams(false, authText, decode).value,
                                          ParseExtraConfig(true, "", decode).value, current),
                    IgnoredFields, canon) == multiset{}
  {
    UntouchedSettingsNeedNoUpdate(current, name, canon);
  }

  /** `name` goes through the string branch of the comparison: a new name
      that parses as the same JSON value as the stored one (`"1"` and `"1.0"`,
      say) is no change, and with nothing else changed no update is sent. */
  lemma SameJsonRenameNotSent(current: Tree, name: string, canon: Canon)
    requires "name" in current && current["name"].Str?
    requires canon(name).Some? && canon(current["name"].s) == canon(name)
    ensures Changes(current, DesiredState(name, None, None, current), IgnoredFields, canon) == multiset{}
  {
    var desired := DesiredState(name, None, None, current);
    forall k | k in desired.Keys
      ensures KeyChanges(current, desired, IgnoredFields, canon, k) == multiset{}
    {
      if k != "name" {
        assert k in current && desired[k] == current[k];
        if k !in IgnoredFields && desired[k].Map? {
          SelfComparisonEqual(current[k].m, IgnoredFields, canon);
        }
      } else {
        assert "name" !in IgnoredFields;
        assert !LeafDiffers(current["name"], Str(name), canon);
      }
    }
    ChangesOverNone(current, desired, IgnoredFields, canon, desired.Keys);
  }

  /** The ignore list is passed down into nested maps: new `auth_params`
      that differ from the stored ones only under ignored keys (a credential's
      `type`, say) report nothing, so no update is sent. */
  lemma IgnoredNestedKeyNotSent(current: Tree, name: string, stored: Tree, given: Tree, canon: Canon)
    requires "name" in current && current["name"] == Str(name)
    requires "authParams" in current && current["authParams"] == Map(stored)
    requires forall k :: k in given && k !in IgnoredFields ==> k in stored && stored[k] == given[k]
    ensures Changes(current, DesiredState(name, Some(given), None, current), IgnoredFields, canon) == multiset{}
  {
    forall k | k in given.Keys
      ensures KeyChanges(stored, given, IgnoredFields, canon, k) == multiset{}
    {
      if k !in IgnoredFields && given[k].Map? {
        SelfComparisonEqual(given[k].m, IgnoredFields, canon);
      }
    }
    ChangesOverNone(stored, given, IgnoredFields, canon, given.Keys);
    var desired := DesiredState(name, Some(given), None, current);
    forall k | k in desired.Keys
      ensures KeyChanges(current, desired, IgnoredFields, canon, k) == multiset{}
    {
      if k == "extraConfig" {
        assert desired[k] == current[k];
        if desired[k].Map? {
          SelfComparisonEqual(current[k].m, IgnoredFields, canon);
        }
      } else if k == "authParams" {
        assert KeyChanges(current, desired, IgnoredFields, canon, k)
               == Prefixed(k, Changes(stored, given, IgnoredFields, canon));
      }
    }
    ChangesOverNone(current, desired, IgnoredFields, canon, desired.Keys);
  }

  /** `resourceConnectorUpdate` up to the final read. `fetched` is what
      `GetConnector` returned, `updateErr` what `UpdateConnector` returns if
      it is called. */
  method Update(id: string, fetched: Result<Tree>, name: string,
                authChanged: bool, authText: string, extraChanged: bool, extraText: string,
                decode: Decode, canon: Canon, updateErr: Option<Error>)
    returns (err: Option<Error>, calls: seq<Call>)
    ensures |calls| >= 1 && calls[0] == CallGet(id)
    ensures fetched.Err? ==>
              calls == [CallGet(id)] && err == Some(Wrap("error getting current connector state", fetched.error))
    ensures var auth := ParseAuthParams(authChanged, authText, decode);
            fetched.Ok? && auth.Err? ==>
              calls == [CallGet(id)] && err == Some(Wrap("error parsing auth_params", auth.error))
    ensures var auth := ParseAuthParams(authChanged, authText, decode);
            var extra := ParseExtraConfig(extraChanged, extraText, decode);
            fetched.Ok? && auth.Ok? && extra.Err? ==>
              calls == [CallGet(id)] && err == Some(Wrap("error parsing extra_config", extra.error))
    ensures var auth := ParseAuthParams(authChanged, authText, decode);
            var extra := ParseExtraConfig(extraChanged, extraText, decode);
            fetched.Ok? && auth.Ok? && extra.Ok? ==>
              var desired := DesiredState(name, auth.value, extra.value, fetched.value);
              if Changes(fetched.value, desired, IgnoredFields, canon) == multiset{} then
                calls == [CallGet(id)] && err.None?
              else
                && calls == [CallGet(id),
                             CallUpdate(Connector.UpdateConnectorVariables(id, name, auth.value, extra.value))]
                && err == (if updateErr.Some? then Some(Wrap("error updating connector", updateErr.value)) else None)
  {
    calls := [CallGet(id)];
    if fetched.Err? {
      return Some(Wrap("error getting current connector state", fetched.error)), calls;
    }
    var currentConnector := fetched.value;

    var authParams: Option<Tree> := None;
    if authChanged {
      var parsed := decode(authText);
      if parsed.Err? {
        return Some(Wrap("error parsing auth_params", parsed.error)), calls;
      }
      authParams := parsed.value;
    }

    var extraConfig: Option<Tree> := None;
    if extraChanged && extraText != "" {
      var parsed := decode(extraText);
      if parsed.Err? {
        return Some(Wrap("error parsing extra_config", parsed.error)), calls;
      }
      extraConfig := parsed.value;
    }

    var desiredState := map["name" := Str(name)];
    if authParams.Some? {
      desiredState := desiredState["authParams" := Map(authParams.value)];
    } else if "authParams" in currentConnector {
      desiredState := desiredState["authParams" := currentConnector["authParams"]];
    }
    if extraConfig.Some? {
      desiredState := desiredState["extraConfig" := Map(extraConfig.value)];
    } else if "extraConfig" in currentConnector {
      desiredState := desiredState["extraConfig" := currentConnector["extraConfig"]];
    }
    assert desiredState == DesiredState(name, authParams, extraConfig, currentConnector);

    var equal, _ := DeepCompare(currentConnector, desiredState, IgnoredFields, canon);
    if !equal {
      var variables := Connector.BuildUpdateVariables(id, name, authParams, extraConfig);
      calls := calls + [CallUpdate(variables)];
      if updateErr.Some? {
        return Some(Wrap("error updating connector", updateErr.value)), calls;
      }
    }
    err := None;
  }

  /** `resourceConnectorCreate`: parse the settings, test the configuration,
      and create the connector only after the test passed. `tested` and
      `created` are what `TestConnectorConfig` and `CreateConnector` return;
      `id` is the id stored for the resource, empty when none is. */
  method Create(name: string, connectorType: string, authText: string, extraText: string,
                decode: Decode, tested: Result<bool>, created: Result<string>)
    returns (err: Option<Error>, id: string, calls: seq<Call>)
    ensures decode(authText).Err? ==>
              calls == [] && err == Some(Wrap("error parsing auth_params", decode(authText).error))
    ensures var extra := ParseExtraConfig(true, extraText, decode);
            decode(authText).Ok? && extra.Err? ==>
              calls == [] && err == Some(Wrap("error parsing extra_config", extra.error))
    ensures var extra := ParseExtraConfig(true, extraText, decode);
            decode(authText).Ok? && extra.Ok? ==>
              && 1 <= |calls| <= 2
              && calls[0] == CallTest(Connector.TestConnectorVariables(connectorType, decode(authText).value, extra.value, ""))
              && (|calls| == 2 <==> tested == Ok(true))
              && (|calls| == 2 ==>
                    calls[1] == CallCreate(Connector.CreateConnectorVariables(name, connectorType, decode(authText).value, extra.value)))
    // creation happens only right after a test that returned true without error
    ensures forall i :: 0 <= i < |calls| && calls[i].CallCreate? ==>
              i > 0 && calls[i - 1].CallTest? && tested == Ok(true)
    ensures tested.Err? && |calls| > 0 ==> err == Some(Wrap("error testing connector configuration", tested.error))
    ensures tested == Ok(false) && |calls| > 0 ==> err == Some(Fail("connector configuration test failed"))
    ensures |calls| == 2 && created.Err? ==> err == Some(Wrap("error creating connector", created.error))
    ensures err.None? <==> |calls| == 2 && created.Ok?
    ensures err.None? ==> id == created.value
    ensures err.Some? ==> id == ""
  {
    calls, id := [], "";
    var authResult := decode(authText);
    if authResult.Err? {
      return Some(Wrap("error parsing auth_params", authResult.error)), id, calls;
    }
    var authParams := authResult.value;

    var extraConfig: Option<Tree> := None;
    if extraText != "" {
      var parsed := decode(extraText);
      if parsed.Err? {
        return Some(Wrap("error parsing extra_config", parsed.error)), id, calls;
      }
      extraConfig := parsed.value;
    }

    var testVariables := Connector.BuildTestVariables(connectorType, authParams, extraConfig, "");
    calls := calls + [CallTest(testVariables)];
    if tested.Err? {
      return Some(Wrap("error testing connector configuration", tested.error)), id, calls;
    }
    if !tested.value {
      return Some(Fail("connector configuration test failed")), id, calls;
    }

    var createVariables := Connector.BuildCreateVariables(name, connectorType, authParams, extraConfig);
    calls := calls + [CallCreate(createVariables)];
    if created.Err? {
      return Some(Wrap("error creating connector", created.error)), id, calls;
    }
    id := created.value;
    err := None;
  }
}
