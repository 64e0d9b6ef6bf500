/** `_strict_output_schema`: every object of a JSON schema closed, and all of its properties required. */
module SchemaClosing {

  datatype Member = Member(key: string, value: Json)

  /** A dictionary keeps its keys in order, each once; numbers and null are never looked into. */
  datatype Json =
    | Atom(atom: int) | Bool(bool) | Text(text: string) | List(items: seq<Json>) | Dict(members: seq<Member>)

  datatype Outcome = Closed(json: Json) | Invalid

  datatype Lookup = Absent | Present(value: Json)

  // ----- Dictionaries -----

  function Keys(members: seq<Member>): seq<string> {
    seq(|members|, i requires 0 <= i < |members| => members[i].key)
  }

  function Get(members: seq<Member>, key: string): (found: Lookup)
    ensures found.Present? ==> Member(key, found.value) in members
    ensures found.Absent? <==> forall m | m in members :: m.key != key
  {
    if members == [] then Absent
    else if members[0].key == key then Present(members[0].value)
    else Get(members[1..], key)
  }

  predicate Distinct(members: seq<Member>) {
    members == [] || (Get(members[1..], members[0].key).Absent? && Distinct(members[1..]))
  }

  /** `dict.pop(key, None)` */
  function Pop(members: seq<Member>, key: string): (kept: seq<Member>)
    ensures forall m :: m in kept ==> m in members
  {
    if members == [] then []
    else if members[0].key == key then Pop(members[1..], key)
    else [members[0]] + Pop(members[1..], key)
  }

  /** `dict[key] = value`: in place, or at the end. */
  function Put(members: seq<Member>, key: string, value: Json): seq<Member> {
    if members == [] then [Member(key, value)]
    else if members[0].key == key then [Member(key, value)] + members[1..]
    else [members[0]] + Put(members[1..], key, value)
  }

  /** `dict.setdefault(key, value)` */
  function PutDefault(members: seq<Member>, key: string, value: Json): seq<Member> {
    if Get(members, key).Absent? then Put(members, key, value) else members
  }

  function Texts(keys: seq<string>): seq<Json> {
    seq(|keys|, i requires 0 <= i < |keys| => Text(keys[i]))
  }

  // ----- Closing -----

  predicate IsObject(members: seq<Member>) {
    Get(members, "type") == Present(Text("object")) || Get(members, "properties").Present?
  }

  function CloseObject(members: seq<Member>): Outcome {
    var whole := PutDefault(members, "properties", Dict([]));
    var properties := Get(whole, "properties");
    if properties.Absent? || !properties.value.Dict? then Invalid
    else
      var narrowed := Put(whole, "additionalProperties", Bool(false));
      Closed(Dict(Put(narrowed, "required", List(Texts(Keys(properties.value.members))))))
  }

  function Close(node: Json): Outcome {
    match node
    case List(items) =>
      var closed := CloseItems(items);
      if closed.None? then Invalid else Closed(List(closed.items))
    case Dict(members) =>
      var closed := CloseMembers(members);
      if closed.NoMembers? then Invalid
      else if IsObject(closed.members) then CloseObject(closed.members)
      else Closed(Dict(closed.members))
    case _ => Closed(node)
  }

  datatype ClosedItems = None | Items(items: seq<Json>)

  datatype ClosedMembers = NoMembers | Members(members: seq<Member>)

  function CloseItems(items: seq<Json>): ClosedItems {
    if items == [] then Items([])
    else
      var first, later := Close(items[0]), CloseItems(items[1..]);
      if first.Invalid? || later.None? then None else Items([first.json] + later.items)
  }

  /** What is kept of the members, closed; a default is dropped unseen. */
  function CloseMembers(members: seq<Member>): ClosedMembers {
    if members == [] then Members([])
    else
      var later := CloseMembers(members[1..]);
      if members[0].key == "default" then later
      else
        var first := Close(members[0].value);
        if first.Invalid? || later.NoMembers? then NoMembers
        else Members([Member(members[0].key, first.json)] + later.members)
  }

  // ----- What closed means -----

  /** An object is closed, and requires exactly its properties. */
  predicate ObjectIsClosed(members: seq<Member>) {
    var properties := Get(members, "properties");
    && properties.Present? && properties.value.Dict?
    && Get(members, "additionalProperties") == Present(Bool(false))
    && Get(members, "required") == Present(List(Texts(Keys(properties.value.members))))
  }

  /** In every dictionary at every depth: no default, distinct keys, and an object is closed. */
  predicate Strict(node: Json) {
    match node
    case List(items) => forall item | item in items :: Strict(item)
    case Dict(members) =>
      && Get(members, "default").Absent?
      && Distinct(members)
      && (IsObject(members) ==> ObjectIsClosed(members))
      && forall m | m in members :: Strict(m.value)
    case _ => true
  }

  /** Every dictionary at every depth has each key once. */
  predicate IsJson(node: Json) {
    match node
    case List(items) => forall item | item in items :: IsJson(item)
    case Dict(members) => Distinct(members) && forall m | m in members :: IsJson(m.value)
    case _ => true
  }

  /** Outside defaults, what an object calls its properties is a dictionary. */
  predicate Closable(node: Json) {
    match node
    case List(items) => forall item | item in items :: Closable(item)
    case Dict(members) =>
      && (forall m | m in members && m.key != "default" :: Closable(m.value))
      && (Get(members, "properties").Present? ==> Get(members, "properties").value.Dict?)
    case _ => true
  }

  // ----- Laws of dictionaries -----

  lemma {:induction false} GetPut(members: seq<Member>, key: string, value: Json, other: string)
    ensures Get(Put(members, key, value), other) == if other == key then Present(value) else Get(members, other)
  {
    if members != [] && members[0].key != key {
      GetPut(members[1..], key, value, other);
    }
  }

  lemma {:induction false} KeysPut(members: seq<Member>, key: string, value: Json)
    ensures Keys(Put(members, key, value)) ==
            if Get(members, key).Present? then Keys(members) else Keys(members) + [key]
  {
    if members != [] && members[0].key != key {
      KeysPut(members[1..], key, value);
      assert Keys(members) == [members[0].key] + Keys(members[1..]);
      assert Keys(Put(members, key, value)) == [members[0].key] + Keys(Put(members[1..], key, value));
    }
  }

  lemma {:induction false} PutSame(members: seq<Member>, key: string, value: Json)
    requires Get(members, key) == Present(value)
    ensures Put(members, key, value) == members
  {
    if members[0].key != key {
      PutSame(members[1..], key, value);
    } else {
      assert members == [Member(key, value)] + members[1..];
    }
  }

  lemma {:induction false} PutMembers(members: seq<Member>, key: string, value: Json)
    ensures forall m | m in Put(members, key, value) :: m == Member(key, value) || m in members
  {
    if members != [] && members[0].key != key {
      PutMembers(members[1..], key, value);
    }
  }

  lemma {:induction false} PutDistinct(members: seq<Member>, key: string, value: Json)
    requires Distinct(members)
    ensures Distinct(Put(members, key, value))
  {
    if members != [] && members[0].key != key {
      PutDistinct(members[1..], key, value);
      GetPut(members[1..], key, value, members[0].key);
    }
  }

  // ----- The result is strict -----

  /** The member of r is the closing of one of the members. */
  predicate IsClosing(members: seq<Member>, r: Member) {
    r.key != "default" && exists m | m in members :: m.key == r.key && Close(m.value) == Closed(r.value)
  }

  lemma {:induction false} CloseMembersLaws(members: seq<Member>, key: string)
    requires CloseMembers(members).Members?
    ensures var found := Get(CloseMembers(members).members, key);
            if key == "default" || Get(members, key).Absent? then found.Absent?
            else Close(Get(members, key).value).Closed? && found == Present(Close(Get(members, key).value).json)
    ensures forall r | r in CloseMembers(members).members :: IsClosing(members, r)
  {
    if members != [] {
      CloseMembersLaws(members[1..], key);
      forall r | r in CloseMembers(members).members
        ensures IsClosing(members, r)
      {
        if r in CloseMembers(members[1..]).members {
          var m :| m in members[1..] && m.key == r.key && Close(m.value) == Closed(r.value);
          assert m in members;
        } else {
          assert members[0] in members;
        }
      }
    }
  }

  lemma {:induction false} CloseMembersDistinct(members: seq<Member>)
    requires CloseMembers(members).Members? && Distinct(members)
    ensures Distinct(CloseMembers(members).members)
  {
    if members != [] {
      CloseMembersDistinct(members[1..]);
      CloseMembersLaws(members[1..], members[0].key);
    }
  }

  lemma {:induction false} CloseItemsLaws(items: seq<Json>)
    requires CloseItems(items).Items?
    ensures forall r | r in CloseItems(items).items :: exists item | item in items :: Close(item) == Closed(r)
  {
    if items != [] {
      CloseItemsLaws(items[1..]);
      forall r | r in CloseItems(items).items
        ensures exists item | item in items :: Close(item) == Closed(r)
      {
        if r in CloseItems(items[1..]).items {
          var item :| item in items[1..] && Close(item) == Closed(r);
          assert item in items;
        } else {
          assert items[0] in items;
        }
      }
    }
  }

  lemma TextsAreStrict(keys: seq<string>)
    ensures Strict(List(Texts(keys)))
  {
  }

  predicate AllStrict(members: seq<Member>) {
    forall m | m in members :: Strict(m.value)
  }

  /** Another key set, to something strict. */
  lemma PutKeepsStrict(members: seq<Member>, key: string, value: Json)
    requires key != "default" && Get(members, "default").Absent? && Distinct(members) && AllStrict(members)
             && Strict(value)
    ensures var after := Put(members, key, value);
            Get(after, "default").Absent? && Distinct(after) && AllStrict(after)
  {
    GetPut(members, key, value, "default");
    PutDistinct(members, key, value);
    PutMembers(members, key, value);
  }

  /** What an object has after it is closed. */
  lemma ObjectCloses(members: seq<Member>)
    requires CloseObject(members).Closed?
    ensures var after := CloseObject(members).json.members;
            && ObjectIsClosed(after)
            && Get(after, "properties") == Get(PutDefault(members, "properties", Dict([])), "properties")
  {
    var whole := PutDefault(members, "properties", Dict([]));
    var narrowed := Put(whole, "additionalProperties", Bool(false));
    var required := List(Texts(Keys(Get(whole, "properties").value.members)));
    GetPut(whole, "additionalProperties", Bool(false), "properties");
    GetPut(whole, "additionalProperties", Bool(false), "additionalProperties");
    GetPut(narrowed, "required", required, "properties");
    GetPut(narrowed, "required", required, "additionalProperties");
    GetPut(narrowed, "required", required, "required");
  }

  lemma ObjectBecomesStrict(members: seq<Member>)
    requires Get(members, "default").Absent? && Distinct(members) && AllStrict(members)
    requires CloseObject(members).Closed?
    ensures Strict(CloseObject(members).json)
  {
    var whole := PutDefault(members, "properties", Dict([]));
    PutKeepsStrict(members, "properties", Dict([]));
    PutKeepsStrict(whole, "additionalProperties", Bool(false));
    var required := Keys(Get(whole, "properties").value.members);
    TextsAreStrict(required);
    PutKeepsStrict(Put(whole, "additionalProperties", Bool(false)), "required", List(Texts(required)));
    ObjectCloses(members);
  }

  /** Whatever is closed is strict at every depth. */
  lemma {:induction false} ClosedIsStrict(node: Json)
    requires IsJson(node) && Close(node).Closed?
    ensures Strict(Close(node).json)
  {
    match node
    case List(items) =>
      CloseItemsLaws(items);
      forall r | r in CloseItems(items).items
        ensures Strict(r)
      {
        var item :| item in items && Close(item) == Closed(r);
        ClosedIsStrict(item);
      }
    case Dict(members) =>
      var closed := CloseMembers(members).members;
      CloseMembersLaws(members, "default");
      CloseMembersDistinct(members);
      forall r | r in closed
        ensures Strict(r.value)
      {
        var m :| m in members && m.key == r.key && Close(m.value) == Closed(r.value);
        ClosedIsStrict(m.value);
      }
      if IsObject(closed) {
        ObjectBecomesStrict(closed);
      }
    case _ =>
  }

  // ----- A second pass -----

  lemma {:induction false} StrictItemsStay(items: seq<Json>)
    requires forall item | item in items :: Close(item) == Closed(item)
    ensures CloseItems(items) == Items(items)
  {
    if items != [] {
      StrictItemsStay(items[1..]);
      assert items[0] in items && items == [items[0]] + items[1..];
    }
  }

  lemma {:induction false} StrictMembersStay(members: seq<Member>)
    requires Get(members, "default").Absent?
    requires forall m | m in members :: Close(m.value) == Closed(m.value)
    ensures CloseMembers(members) == Members(members)
  {
    if members != [] {
      StrictMembersStay(members[1..]);
      assert members[0] in members && members == [members[0]] + members[1..];
    }
  }

  lemma {:induction false} StrictStays(node: Json)
    requires Strict(node)
    ensures Close(node) == Closed(node)
  {
    match node
    case List(items) =>
      forall item | item in items
        ensures Close(item) == Closed(item)
      {
        StrictStays(item);
      }
      StrictItemsStay(items);
    case Dict(members) =>
      forall m | m in members
        ensures Close(m.value) == Closed(m.value)
      {
        StrictStays(m.value);
      }
      StrictMembersStay(members);
      if IsObject(members) {
        PutSame(members, "additionalProperties", Bool(false));
        PutSame(members, "required", Get(members, "required").value);
      }
    case _ =>
  }

  /** What a pass leaves as it is, is exactly what is strict; so a second pass changes nothing. */
  lemma UnchangedIffStrict(node: Json)
    requires IsJson(node)
    ensures Close(node) == Closed(node) <==> Strict(node)
    ensures Close(node).Closed? ==> Close(Close(node).json) == Close(node)
  {
    if Close(node).Closed? {
      ClosedIsStrict(node);
      StrictStays(Close(node).json);
    }
    if Strict(node) {
      StrictStays(node);
    }
  }

  // ----- When a pass succeeds -----

  lemma {:induction false} ItemsCloseIff(items: seq<Json>)
    ensures CloseItems(items).Items? <==> forall item | item in items :: Close(item).Closed?
  {
    if items != [] {
      ItemsCloseIff(items[1..]);
      assert items[0] in items && forall item | item in items[1..] :: item in items;
      assert forall item | item in items :: item == items[0] || item in items[1..];
    }
  }

  lemma {:induction false} MembersCloseIff(members: seq<Member>)
    ensures CloseMembers(members).Members? <==> forall m | m in members && m.key != "default" :: Close(m.value).Closed?
  {
    if members != [] {
      MembersCloseIff(members[1..]);
      assert members == [members[0]] + members[1..];
    }
  }

  lemma DictStaysDict(node: Json)
    requires Close(node).Closed?
    ensures Close(node).json.Dict? <==> node.Dict?
  {
  }

  lemma ObjectClosesIff(members: seq<Member>)
    ensures CloseObject(members).Closed? <==>
            (Get(members, "properties").Present? ==> Get(members, "properties").value.Dict?)
  {
    GetPut(members, "properties", Dict([]), "properties");
  }

  lemma DictClosesIff(members: seq<Member>)
    ensures Close(Dict(members)).Closed? <==>
            && (forall m | m in members && m.key != "default" :: Close(m.value).Closed?)
            && (Get(members, "properties").Present? ==> Get(members, "properties").value.Dict?)
  {
    MembersCloseIff(members);
    if CloseMembers(members).Members? {
      ClosingKeepsProperties(members);
      ObjectClosesIff(CloseMembers(members).members);
    }
  }

  lemma ClosingKeepsProperties(members: seq<Member>)
    requires CloseMembers(members).Members?
    ensures var found, closed := Get(members, "properties"), Get(CloseMembers(members).members, "properties");
            (closed.Present? <==> found.Present?) && (found.Present? ==> (closed.value.Dict? <==> found.value.Dict?))
  {
    CloseMembersLaws(members, "properties");
    if Get(members, "properties").Present? {
      DictStaysDict(Get(members, "properties").value);
    }
  }

  /** A pass succeeds exactly where every `properties` it meets is a dictionary. */
  lemma {:induction false} CloseSucceedsIff(node: Json)
    ensures Close(node).Closed? <==> Closable(node)
  {
    match node
    case List(items) =>
      forall item | item in items
        ensures Close(item).Closed? <==> Closable(item)
      {
        CloseSucceedsIff(item);
      }
      ItemsCloseIff(items);
    case Dict(members) =>
      forall m | m in members
        ensures Close(m.value).Closed? <==> Closable(m.value)
      {
        CloseSucceedsIff(m.value);
      }
      DictClosesIff(members);
    case _ =>
  }

  // ----- What a pass keeps -----

  /** Every other key of a dictionary keeps its value, closed. */
  lemma OtherMembersAreKept(members: seq<Member>, key: string)
    requires Close(Dict(members)).Closed?
    requires key !in {"default", "additionalProperties", "required"}
    requires key == "properties" ==> Get(members, key).Present?
    ensures Close(Dict(members)).json.Dict?
    ensures var after := Get(Close(Dict(members)).json.members, key);
            if Get(members, key).Absent? then after.Absent?
            else Close(Get(members, key).value).Closed? && after == Present(Close(Get(members, key).value).json)
  {
    var closed := CloseMembers(members).members;
    CloseMembersLaws(members, key);
    if IsObject(closed) {
      var whole := PutDefault(closed, "properties", Dict([]));
      GetPut(closed, "properties", Dict([]), key);
      GetPut(closed, "properties", Dict([]), "properties");
      var required := List(Texts(Keys(Get(whole, "properties").value.members)));
      GetPut(whole, "additionalProperties", Bool(false), key);
      GetPut(Put(whole, "additionalProperties", Bool(false)), "required", required, key);
    }
  }

  lemma {:induction false} KeysClose(members: seq<Member>)
    requires CloseMembers(members).Members?
    ensures Keys(CloseMembers(members).members) == Keys(Pop(members, "default"))
  {
    if members != [] {
      KeysClose(members[1..]);
      if members[0].key != "default" {
        KeysAfterFirst(members[0], Pop(members[1..], "default"));
        KeysAfterFirst(Member(members[0].key, Close(members[0].value).json), CloseMembers(members[1..]).members);
      }
    }
  }

  lemma KeysAfterFirst(first: Member, later: seq<Member>)
    ensures Keys([first] + later) == [first.key] + Keys(later)
  {
  }

  /** Every item of a list stays in its place, closed. */
  lemma {:induction false} ItemsAreKept(items: seq<Json>)
    requires CloseItems(items).Items?
    ensures |CloseItems(items).items| == |items|
    ensures forall i | 0 <= i < |items| :: Close(items[i]) == Closed(CloseItems(items).items[i])
  {
    if items != [] {
      ItemsAreKept(items[1..]);
      forall i | 0 <= i < |items|
        ensures Close(items[i]) == Closed(CloseItems(items).items[i])
      {
        if i > 0 {
          assert items[i] == items[1..][i - 1];
        }
      }
    }
  }

  lemma {:induction false} PopShortens(members: seq<Member>, key: string)
    ensures Get(members, key).Absent? ==> Pop(members, key) == members
    ensures Get(members, key).Present? ==> |Pop(members, key)| < |members|
    ensures |Pop(members, key)| <= |members|
    ensures Get(Pop(members, key), key).Absent?
  {
    if members != [] {
      PopShortens(members[1..], key);
      assert members == [members[0]] + members[1..];
    }
  }

  // ----- What is declared and what is required -----

  /** A dictionary of properties that closing takes for an object itself already has what an object gets. */
  predicate HasObjectKeys(properties: seq<Member>) {
    Get(properties, "properties").Present? && Get(properties, "additionalProperties").Present?
    && Get(properties, "required").Present?
  }

  lemma ClosingAddsKeys(members: seq<Member>)
    requires CloseObject(members).Closed?
    ensures var after := CloseObject(members).json.members;
            && (HasObjectKeys(members) ==> Keys(after) == Keys(members))
            && (!HasObjectKeys(members) ==> |after| > |members|)
            && Get(after, "default") == Get(members, "default")
  {
    var whole := PutDefault(members, "properties", Dict([]));
    var required := List(Texts(Keys(Get(whole, "properties").value.members)));
    var narrowed := Put(whole, "additionalProperties", Bool(false));
    KeysPut(members, "properties", Dict([]));
    KeysPut(whole, "additionalProperties", Bool(false));
    KeysPut(narrowed, "required", required);
    GetPut(members, "properties", Dict([]), "additionalProperties");
    GetPut(members, "properties", Dict([]), "required");
    GetPut(members, "properties", Dict([]), "default");
    GetPut(whole, "additionalProperties", Bool(false), "required");
    GetPut(whole, "additionalProperties", Bool(false), "default");
    GetPut(narrowed, "required", required, "default");
    LengthsOfKeys(members, whole, narrowed, Put(narrowed, "required", required));
  }

  lemma LengthsOfKeys(a: seq<Member>, b: seq<Member>, c: seq<Member>, d: seq<Member>)
    ensures |Keys(a)| == |a| && |Keys(b)| == |b| && |Keys(c)| == |c| && |Keys(d)| == |d|
  {
  }

  lemma SameKeysSameLookup(a: seq<Member>, b: seq<Member>, key: string)
    requires Keys(a) == Keys(b)
    ensures Get(a, key).Present? <==> Get(b, key).Present?
  {
    forall i | 0 <= i < |a|
      ensures i < |b| && a[i].key == b[i].key
    {
      assert Keys(a)[i] == Keys(b)[i];
    }
    assert |Keys(b)| == |b| && |Keys(a)| == |a|;
    forall m | m in a
      ensures exists n | n in b :: n.key == m.key
    {
      var i :| 0 <= i < |a| && a[i] == m;
      assert b[i] in b;
    }
    forall n | n in b
      ensures exists m | m in a :: m.key == n.key
    {
      var i :| 0 <= i < |b| && b[i] == n;
      assert a[i] in a;
    }
  }

  lemma ClosingKeepsKey(members: seq<Member>, key: string)
    requires CloseMembers(members).Members?
    ensures var closed := CloseMembers(members).members;
            && (Get(closed, key).Present? <==> key != "default" && Get(members, key).Present?)
            && (key != "default" ==>
                forall text :: Get(closed, key) == Present(Text(text)) <==> Get(members, key) == Present(Text(text)))
  {
    CloseMembersLaws(members, key);
  }

  lemma ClosingKeepsObject(members: seq<Member>)
    requires CloseMembers(members).Members?
    ensures var closed := CloseMembers(members).members;
            && (IsObject(closed) <==> IsObject(members))
            && (HasObjectKeys(closed) <==> HasObjectKeys(members))
            && Get(closed, "default").Absent?
  {
    ClosingKeepsKey(members, "type");
    ClosingKeepsKey(members, "properties");
    ClosingKeepsKey(members, "additionalProperties");
    ClosingKeepsKey(members, "required");
    ClosingKeepsKey(members, "default");
  }

  /** A dictionary that is no object only loses its default; the other keys keep their order. */
  lemma OnlyObjectsGainKeys(members: seq<Member>)
    requires Close(Dict(members)).Closed? && !IsObject(members)
    ensures Close(Dict(members)).json.Dict?
    ensures Keys(Close(Dict(members)).json.members) == Keys(Pop(members, "default"))
  {
    ClosingKeepsObject(members);
    KeysClose(members);
  }

  lemma KeysKeptIff(properties: seq<Member>)
    requires Close(Dict(properties)).Closed?
    ensures Keys(Close(Dict(properties)).json.members) == Keys(properties) <==>
            Get(properties, "default").Absent? && (IsObject(properties) ==> HasObjectKeys(properties))
  {
    var closed, after := CloseMembers(properties).members, Close(Dict(properties)).json.members;
    ClosingKeepsObject(properties);
    KeysClose(properties);
    PopShortens(properties, "default");
    if IsObject(closed) {
      ClosingAddsKeys(closed);
    }
    LengthsOfKeys(properties, closed, after, Pop(properties, "default"));
    if Keys(after) == Keys(properties) {
      SameKeysSameLookup(after, properties, "default");
    }
  }

  lemma TextsInjective(a: seq<string>, b: seq<string>)
    ensures Texts(a) == Texts(b) <==> a == b
  {
    if Texts(a) == Texts(b) {
      forall i | 0 <= i < |a|
        ensures i < |b| && a[i] == b[i]
      {
        assert |Texts(a)| == |a| && |Texts(b)| == |b| && Texts(a)[i] == Texts(b)[i];
      }
      assert |Texts(a)| == |a| && |Texts(b)| == |b|;
    }
  }

  /**
   * An object requires exactly what it declared, unless a property is named `default`, or the properties look like
   * an object themselves (a property named `properties`) without having an object's keys.
   */
  lemma EveryDeclaredIsRequiredIff(members: seq<Member>, properties: seq<Member>)
    requires Close(Dict(members)).Closed? && Get(members, "properties") == Present(Dict(properties))
    ensures Close(Dict(members)).json.Dict?
    ensures Get(Close(Dict(members)).json.members, "required") == Present(List(Texts(Keys(properties)))) <==>
            Get(properties, "default").Absent? && (IsObject(properties) ==> HasObjectKeys(properties))
  {
    var closed := CloseMembers(members).members;
    CloseMembersLaws(members, "properties");
    ObjectCloses(closed);
    var after := Close(Dict(properties)).json.members;
    TextsInjective(Keys(after), Keys(properties));
    KeysKeptIff(properties);
  }

  /** A property named `default` is lost. */
  lemma PropertyNamedDefaultIsLost(schema: Json)
    ensures Close(Dict([Member("properties", Dict([Member("default", schema)]))]))
            == Closed(Dict([Member("properties", Dict([])), Member("additionalProperties", Bool(false)),
                            Member("required", List([]))]))
  {
    var properties := [Member("default", schema)];
    assert properties[1..] == [] && CloseMembers(properties) == Members([]);
    assert Close(Dict(properties)) == Closed(Dict([]));
    OneMemberCloses(Dict(properties), Dict([]));
    ObjectOfPropertiesCloses([]);
    assert Texts(Keys([])) == [];
  }

  /** A property named `properties` makes the properties look like an object: they gain an object's keys, and then
      more is required than was declared. */
  lemma PropertyNamedPropertiesGainsKeys()
    ensures var inner := [Member("properties", Dict([])), Member("additionalProperties", Bool(false)),
                          Member("required", List([]))];
            Close(Dict([Member("properties", Dict([Member("properties", Dict([]))]))]))
            == Closed(Dict([Member("properties", Dict(inner)), Member("additionalProperties", Bool(false)),
                            Member("required",
                                   List([Text("properties"), Text("additionalProperties"), Text("required")]))]))
  {
    var declared := [Member("properties", Dict([]))];
    var inner := [Member("properties", Dict([])), Member("additionalProperties", Bool(false)),
                  Member("required", List([]))];
    OneMemberCloses(Dict([]), Dict([]));
    ObjectOfPropertiesCloses([]);
    assert Texts(Keys([])) == [];
    assert Close(Dict(declared)) == Closed(Dict(inner));
    OneMemberCloses(Dict(declared), Dict(inner));
    ObjectOfPropertiesCloses(inner);
    assert Texts(Keys(inner)) == [Text("properties"), Text("additionalProperties"), Text("required")];
  }

  lemma OneMemberCloses(properties: Json, closed: Json)
    requires Close(properties) == Closed(closed)
    ensures CloseMembers([Member("properties", properties)]) == Members([Member("properties", closed)])
    ensures IsObject([Member("properties", closed)])
  {
    var members := [Member("properties", properties)];
    assert members[1..] == [] && CloseMembers([]) == Members([]);
    assert Get([Member("properties", closed)], "properties") == Present(closed);
  }

  lemma ObjectOfPropertiesCloses(properties: seq<Member>)
    ensures CloseObject([Member("properties", Dict(properties))])
            == Closed(Dict([Member("properties", Dict(properties)), Member("additionalProperties", Bool(false)),
                            Member("required", List(Texts(Keys(properties))))]))
  {
    var whole := [Member("properties", Dict(properties))];
    var narrowed := whole + [Member("additionalProperties", Bool(false))];
    var required := List(Texts(Keys(properties)));
    PutAtEnd(whole, "additionalProperties", Bool(false));
    PutAtEnd(narrowed, "required", required);
    assert Get(whole, "properties") == Present(Dict(properties));
    assert narrowed + [Member("required", required)] ==
           [Member("properties", Dict(properties)), Member("additionalProperties", Bool(false)),
            Member("required", required)];
  }

  lemma {:induction false} PutAtEnd(members: seq<Member>, key: string, value: Json)
    requires forall m | m in members :: m.key != key
    ensures Put(members, key, value) == members + [Member(key, value)]
  {
    if members != [] {
      PutAtEnd(members[1..], key, value);
    }
  }

  // ----- The pass, in its loops -----

  method CloseObjects(node: Json) returns (outcome: Outcome)
    ensures outcome == Close(node)
    decreases node, 0
  {
    match node {
      case List(items) =>
        outcome := CloseEach(items);
      case Dict(members) =>
        var values := CloseValues(members);
        if values.NoMembers? {
          return Invalid;
        }
        var closed := values.members;
        if IsObject(closed) {
          closed := PutDefault(closed, "properties", Dict([]));
          var properties := Get(closed, "properties");
          GetPut(values.members, "properties", Dict([]), "properties");
          if !properties.value.Dict? {
            return Invalid;
          }
          closed := Put(closed, "additionalProperties", Bool(false));
          closed := Put(closed, "required", List(Texts(Keys(properties.value.members))));
        }
        outcome := Closed(Dict(closed));
      case _ =>
        outcome := Closed(node);
    }
  }

  method CloseEach(items: seq<Json>) returns (outcome: Outcome)
    ensures outcome == Close(List(items))
    decreases items, 1
  {
    var closed: seq<Json>, next := [], 0;
    while next < |items|
      invariant 0 <= next <= |items|
      invariant CloseItems(items[..next]) == Items(closed)
    {
      assert items[next] in items;
      var child := CloseObjects(items[next]);
      if child.Invalid? {
        ItemsCloseIff(items);
        return Invalid;
      }
      ItemsAppend(items[..next], items[next]);
      assert items[..next + 1] == items[..next] + [items[next]];
      closed := closed + [child.json];
      next := next + 1;
    }
    assert items[..next] == items;
    outcome := Closed(List(closed));
  }

  /** The dictionary without its default, its values closed in order. */
  method CloseValues(members: seq<Member>) returns (closed: ClosedMembers)
    ensures closed == CloseMembers(members)
    decreases members, 1
  {
    var kept, values: seq<Member>, next := Pop(members, "default"), [], 0;
    PopKeepsOthers(members);
    while next < |kept|
      invariant 0 <= next <= |kept|
      invariant CloseMembers(kept[..next]) == Members(values)
    {
      assert kept[next] in kept;
      var child := CloseObjects(kept[next].value);
      if child.Invalid? {
        MembersCloseIff(kept);
        return NoMembers;
      }
      MembersAppend(kept[..next], kept[next]);
      assert kept[..next + 1] == kept[..next] + [kept[next]];
      values := values + [Member(kept[next].key, child.json)];
      next := next + 1;
    }
    assert kept[..next] == kept;
    closed := Members(values);
  }

  lemma {:induction false} ItemsAppend(items: seq<Json>, item: Json)
    requires CloseItems(items).Items? && Close(item).Closed?
    ensures CloseItems(items + [item]) == Items(CloseItems(items).items + [Close(item).json])
  {
    if items == [] {
      assert [item][1..] == [];
    } else {
      ItemsAppend(items[1..], item);
      assert (items + [item])[1..] == items[1..] + [item];
    }
  }

  lemma {:induction false} MembersAppend(members: seq<Member>, m: Member)
    requires CloseMembers(members).Members? && Close(m.value).Closed? && m.key != "default"
    ensures CloseMembers(members + [m]) == Members(CloseMembers(members).members + [Member(m.key, Close(m.value).json)])
  {
    if members == [] {
      assert [m][1..] == [];
    } else {
      MembersAppend(members[1..], m);
      assert (members + [m])[1..] == members[1..] + [m];
    }
  }

  lemma {:induction false} PopKeepsOthers(members: seq<Member>)
    ensures CloseMembers(Pop(members, "default")) == CloseMembers(members)
    ensures forall m | m in Pop(members, "default") :: m.key != "default"
  {
    if members != [] {
      PopKeepsOthers(members[1..]);
      if members[0].key != "default" {
        assert ([members[0]] + Pop(members[1..], "default"))[1..] == Pop(members[1..], "default");
      }
    }
  }
}
