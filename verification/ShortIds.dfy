/** `_short_id_map`: the shortest labels that tell a set of ids apart, from sorted neighbours alone. */
module ShortIds {

  // ----- Order and common prefixes -----

  predicate Less(a: string, b: string) {
    if b == "" then false
    else if a == "" then true
    else if a[0] != b[0] then a[0] < b[0]
    else Less(a[1..], b[1..])
  }

  function Common(a: string, b: string): (n: nat)
    ensures n <= |a| && n <= |b|
  {
    if a == "" || b == "" || a[0] != b[0] then 0 else 1 + Common(a[1..], b[1..])
  }

  lemma {:induction false} Trichotomy(a: string, b: string)
    ensures Less(a, b) || Less(b, a) || a == b
    ensures !(Less(a, b) && Less(b, a)) && (Less(a, b) ==> a != b)
  {
    if a != "" && b != "" && a[0] == b[0] {
      Trichotomy(a[1..], b[1..]);
      assert a == [a[0]] + a[1..] && b == [b[0]] + b[1..];
    }
  }

  /** Ids further apart in the order share no more than the ones between. */
  lemma {:induction false} Between(a: string, b: string, c: string)
    requires Less(a, b) && Less(b, c)
    ensures Less(a, c) && Common(a, c) <= Common(a, b) && Common(a, c) <= Common(b, c)
  {
    if a != "" && a[0] == b[0] == c[0] {
      Between(a[1..], b[1..], c[1..]);
    }
  }

  /** The common length is that of the longest prefix the two share. */
  lemma {:induction false} CommonIsLongest(a: string, b: string, k: nat)
    requires k <= |a|
    ensures a[..k] <= b <==> k <= Common(a, b)
  {
    if k != 0 && a != "" && b != "" && a[0] == b[0] {
      CommonIsLongest(a[1..], b[1..], k - 1);
      assert a[..k] == [a[0]] + a[1..][..k - 1] && b == [b[0]] + b[1..];
      assert a[..k] <= b <==> a[1..][..k - 1] <= b[1..] by {
        if a[..k] <= b {
          assert b[..k][1..] == b[1..][..k - 1];
        }
      }
    }
  }

  lemma {:induction false} CommonSymmetric(a: string, b: string)
    ensures Common(a, b) == Common(b, a)
  {
    if a != "" && b != "" && a[0] == b[0] {
      CommonSymmetric(a[1..], b[1..]);
    }
  }

  method CommonPrefixLength(left: string, right: string) returns (length: nat)
    ensures length == Common(left, right)
  {
    length := 0;
    while length < |left| && length < |right|
      invariant length <= |left| && length <= |right|
      invariant length + Common(left[length..], right[length..]) == Common(left, right)
    {
      if left[length] != right[length] {
        break;
      }
      length := length + 1;
    }
  }

  // ----- `sorted` of a set -----

  predicate Sorted(ids: seq<string>) {
    forall i, j | 0 <= i < j < |ids| :: Less(ids[i], ids[j])
  }

  function Insert(id: string, ids: seq<string>): seq<string> {
    if ids == [] then [id]
    else if id == ids[0] then ids
    else if Less(id, ids[0]) then [id] + ids
    else [ids[0]] + Insert(id, ids[1..])
  }

  /** The distinct non-empty values in order. */
  function Unique(values: seq<string>): seq<string> {
    if values == [] then []
    else if values[0] == "" then Unique(values[1..])
    else Insert(values[0], Unique(values[1..]))
  }

  lemma {:induction false} InsertKeeps(id: string, ids: seq<string>)
    requires Sorted(ids)
    ensures Sorted(Insert(id, ids))
    ensures forall x :: x in Insert(id, ids) <==> x == id || x in ids
  {
    if ids != [] && id != ids[0] {
      Trichotomy(id, ids[0]);
      if Less(id, ids[0]) {
        forall j | 0 < j < |ids|
          ensures Less(id, ids[j])
        {
          Between(id, ids[0], ids[j]);
        }
      } else {
        InsertKeeps(id, ids[1..]);
        var later := Insert(id, ids[1..]);
        forall j | 0 <= j < |later|
          ensures Less(ids[0], later[j])
        {
          assert later[j] in later;
        }
        assert ids == [ids[0]] + ids[1..];
      }
    }
  }

  lemma {:induction false} UniqueIsSorted(values: seq<string>)
    ensures Sorted(Unique(values))
    ensures forall x :: x in Unique(values) <==> x in values && x != ""
  {
    if values != [] {
      UniqueIsSorted(values[1..]);
      assert values == [values[0]] + values[1..];
      if values[0] != "" {
        InsertKeeps(values[0], Unique(values[1..]));
      }
    }
  }

  // ----- Labels -----

  function Max(a: int, b: int): int {
    if a > b then a else b
  }

  function Min(a: int, b: int): int {
    if a < b then a else b
  }

  function Neighbour(ids: seq<string>, i: int): string {
    if 0 <= i < |ids| then ids[i] else ""
  }

  function Shared(ids: seq<string>, i: nat): nat
    requires i < |ids|
  {
    Max(Common(ids[i], Neighbour(ids, i - 1)), Common(ids[i], Neighbour(ids, i + 1)))
  }

  function LabelLength(ids: seq<string>, i: nat, minimum: int): (length: nat)
    requires i < |ids|
    ensures length <= |ids[i]|
  {
    Min(|ids[i]|, Max(minimum, Shared(ids, i) + 1))
  }

  function LabelOf(ids: seq<string>, i: nat, minimum: int): string
    requires i < |ids|
  {
    ids[i][..LabelLength(ids, i, minimum)]
  }

  /** In sorted order the longest prefix that an id shares with any other is shared with a neighbour. */
  lemma NeighboursShareMost(ids: seq<string>, i: nat, j: nat)
    requires Sorted(ids) && i < |ids| && j < |ids| && i != j
    ensures Common(ids[i], ids[j]) <= Shared(ids, i)
  {
    if i + 1 < j {
      Between(ids[i], ids[i + 1], ids[j]);
    } else if j + 1 < i {
      Between(ids[j], ids[i - 1], ids[i]);
      CommonSymmetric(ids[i], ids[j]);
      CommonSymmetric(ids[i], ids[i - 1]);
    }
  }

  /** Another id has the same first k characters. */
  predicate Ambiguous(ids: seq<string>, id: string, k: nat)
    requires k <= |id|
  {
    exists other | other in ids :: other != id && id[..k] <= other
  }

  lemma AmbiguousIff(ids: seq<string>, i: nat, k: nat)
    requires Sorted(ids) && i < |ids| && 0 < k <= |ids[i]|
    ensures Ambiguous(ids, ids[i], k) <==> k <= Shared(ids, i)
  {
    if Ambiguous(ids, ids[i], k) {
      var other :| other in ids && other != ids[i] && ids[i][..k] <= other;
      var j :| 0 <= j < |ids| && ids[j] == other;
      CommonIsLongest(ids[i], other, k);
      NeighboursShareMost(ids, i, j);
    }
    if k <= Shared(ids, i) {
      var j := if k <= Common(ids[i], Neighbour(ids, i - 1)) then i - 1 else i + 1;
      CommonIsLongest(ids[i], ids[j], k);
      Trichotomy(ids[Min(i, j)], ids[Max(i, j)]);
      assert ids[j] in ids;
    }
  }

  /** Of the lengths no less than the minimum, a label has the first that is whole or unambiguous. */
  lemma LabelIsShortest(ids: seq<string>, i: nat, minimum: int, k: nat)
    requires Sorted(ids) && i < |ids| && Max(minimum, 1) <= k <= |ids[i]|
    ensures k < LabelLength(ids, i, minimum) <==> k < |ids[i]| && Ambiguous(ids, ids[i], k)
  {
    AmbiguousIff(ids, i, k);
  }

  /** A label begins another id only where it is the whole of its own. */
  lemma LabelIsUnambiguous(ids: seq<string>, i: nat, minimum: int)
    requires Sorted(ids) && i < |ids| && ids[i] != ""
    ensures LabelLength(ids, i, minimum) > 0
    ensures LabelLength(ids, i, minimum) == |ids[i]| || !Ambiguous(ids, ids[i], LabelLength(ids, i, minimum))
  {
    AmbiguousIff(ids, i, LabelLength(ids, i, minimum));
  }

  predicate Distinct(ids: seq<string>) {
    forall i, j | 0 <= i < j < |ids| :: ids[i] != ids[j]
  }

  lemma SortedAreDistinct(ids: seq<string>)
    requires Sorted(ids)
    ensures Distinct(ids)
  {
    forall i, j | 0 <= i < j < |ids|
      ensures ids[i] != ids[j]
    {
      Trichotomy(ids[i], ids[j]);
    }
  }

  predicate HasLabel(ids: seq<string>, i: nat, minimum: int, labels: map<string, string>)
    requires i < |ids|
  {
    ids[i] in labels && labels[ids[i]] == LabelOf(ids, i, minimum)
  }

  /** The first n ids are labelled. */
  ghost predicate Labelled(ids: seq<string>, n: nat, minimum: int, labels: map<string, string>)
    requires n <= |ids|
  {
    && (forall i: nat | i < n :: HasLabel(ids, i, minimum, labels))
    && forall id | id in labels :: id in ids
  }

  lemma LabelledNext(ids: seq<string>, n: nat, minimum: int, labels: map<string, string>)
    requires Distinct(ids) && n < |ids| && Labelled(ids, n, minimum, labels)
    ensures Labelled(ids, n + 1, minimum, labels[ids[n] := LabelOf(ids, n, minimum)])
  {
    var more := labels[ids[n] := LabelOf(ids, n, minimum)];
    forall i: nat | i < n + 1
      ensures HasLabel(ids, i, minimum, more)
    {
      assert i < n ==> HasLabel(ids, i, minimum, labels);
    }
    assert ids[n] in ids;
  }

  lemma EveryIdIsLabelled(ids: seq<string>, minimum: int, labels: map<string, string>)
    requires Labelled(ids, |ids|, minimum, labels)
    ensures forall id :: id in labels <==> id in ids
  {
    forall id | id in ids
      ensures id in labels
    {
      var i: nat :| i < |ids| && ids[i] == id;
      assert HasLabel(ids, i, minimum, labels);
    }
  }

  /** A label that begins another id is the whole of its own. */
  ghost predicate TellApart(labels: map<string, string>) {
    forall id, other | id in labels && other in labels && id != other :: labels[id] <= other ==> labels[id] == id
  }

  ghost predicate BeginsAnother(labels: map<string, string>, id: string, text: string) {
    exists other | other in labels :: other != id && text <= other
  }

  /** A label over the minimum would begin another id if its last character went. */
  ghost predicate NoneCanBeShortened(labels: map<string, string>, minimum: int) {
    forall id | id in labels && |labels[id]| > Max(minimum, 1) ::
      BeginsAnother(labels, id, labels[id][..|labels[id]| - 1])
  }

  ghost predicate AreLabels(labels: map<string, string>, minimum: int) {
    forall id | id in labels :: labels[id] != "" && labels[id] <= id && Min(|id|, minimum) <= |labels[id]|
  }

  lemma LabelsTellApart(ids: seq<string>, minimum: int, labels: map<string, string>)
    requires Sorted(ids) && "" !in ids && Labelled(ids, |ids|, minimum, labels)
    ensures AreLabels(labels, minimum) && TellApart(labels)
  {
    EveryIdIsLabelled(ids, minimum, labels);
    forall id | id in labels
      ensures labels[id] != "" && labels[id] <= id && Min(|id|, minimum) <= |labels[id]|
      ensures forall other | other in labels && id != other :: labels[id] <= other ==> labels[id] == id
    {
      var i: nat :| i < |ids| && ids[i] == id;
      assert HasLabel(ids, i, minimum, labels);
      LabelIsUnambiguous(ids, i, minimum);
    }
  }

  lemma ShorterIsAmbiguous(ids: seq<string>, i: nat, minimum: int, text: string) returns (other: string)
    requires Sorted(ids) && i < |ids| && text == LabelOf(ids, i, minimum) && |text| > Max(minimum, 1)
    ensures other in ids && other != ids[i] && text[..|text| - 1] <= other
  {
    var k := |text| - 1;
    LabelIsShortest(ids, i, minimum, k);
    other :| other in ids && other != ids[i] && ids[i][..k] <= other;
    assert text[..k] == ids[i][..k];
  }

  lemma IdIsShortest(ids: seq<string>, minimum: int, labels: map<string, string>, id: string)
    requires Sorted(ids) && Labelled(ids, |ids|, minimum, labels)
    requires id in labels && |labels[id]| > Max(minimum, 1)
    ensures BeginsAnother(labels, id, labels[id][..|labels[id]| - 1])
  {
    EveryIdIsLabelled(ids, minimum, labels);
    var i: nat :| i < |ids| && ids[i] == id;
    assert HasLabel(ids, i, minimum, labels);
    var other := ShorterIsAmbiguous(ids, i, minimum, labels[id]);
    assert other in labels;
  }

  lemma LabelsAreShortest(ids: seq<string>, minimum: int, labels: map<string, string>)
    requires Sorted(ids) && Labelled(ids, |ids|, minimum, labels)
    ensures NoneCanBeShortened(labels, minimum)
  {
    forall id | id in labels && |labels[id]| > Max(minimum, 1)
      ensures BeginsAnother(labels, id, labels[id][..|labels[id]| - 1])
    {
      IdIsShortest(ids, minimum, labels, id);
    }
  }

  /** Labels that tell ids apart are themselves distinct. */
  lemma LabelsAreDistinct(labels: map<string, string>, minimum: int)
    requires AreLabels(labels, minimum) && TellApart(labels)
    ensures forall id, other | id in labels && other in labels && id != other :: labels[id] != labels[other]
  {
  }

  method Label(unique: seq<string>, index: nat, minimum: int) returns (text: string)
    requires index < |unique|
    ensures text == LabelOf(unique, index, minimum)
  {
    var value := unique[index];
    var previous := if index > 0 then unique[index - 1] else "";
    var following := if index + 1 < |unique| then unique[index + 1] else "";
    var before := CommonPrefixLength(value, previous);
    var after := CommonPrefixLength(value, following);
    var length := Min(|value|, Max(minimum, Max(before, after) + 1));
    text := value[..length];
  }

  method LabelAll(unique: seq<string>, minimum: int) returns (labels: map<string, string>)
    requires Sorted(unique)
    ensures Labelled(unique, |unique|, minimum, labels)
  {
    SortedAreDistinct(unique);
    labels := map[];
    var index := 0;
    while index < |unique|
      invariant 0 <= index <= |unique| && Labelled(unique, index, minimum, labels)
    {
      var text := Label(unique, index, minimum);
      LabelledNext(unique, index, minimum, labels);
      labels := labels[unique[index] := text];
      index := index + 1;
    }
  }

  method ShortIdMap(values: seq<string>, minimum: int) returns (labels: map<string, string>)
    ensures forall id :: id in labels <==> id in values && id != ""
    ensures AreLabels(labels, minimum) && TellApart(labels) && NoneCanBeShortened(labels, minimum)
    ensures forall id, other | id in labels && other in labels && id != other :: labels[id] != labels[other]
  {
    var unique := Unique(values);
    UniqueIsSorted(values);
    labels := LabelAll(unique, minimum);
    EveryIdIsLabelled(unique, minimum, labels);
    LabelsTellApart(unique, minimum, labels);
    LabelsAreShortest(unique, minimum, labels);
    LabelsAreDistinct(labels, minimum);
  }
}
