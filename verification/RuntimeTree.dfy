/** What `python_runtime_sha256` feeds to its digest: the entries of a runtime tree, field by field. */
module RuntimeTree {
  import opened Bytes
  import opened ManifestEncoding
  import opened Processes

  /** `size` is what `lstat` said before the contents were read. */
  datatype Kind = LinkTo(target: seq<Byte>) | Directory | File(size: nat, contents: seq<Byte>)

  datatype Node = Node(path: seq<Byte>, mode: nat, kind: Kind) {
    predicate Valid() {
      Short(path) && Short(Decimal(mode)) && match kind
        case LinkTo(target) => Short(target)
        case Directory => true
        case File(size, contents) => Short(Decimal(size)) && |contents| == size
    }
  }

  function Decimal(n: nat): seq<Byte> {
    Digits(n, TEN)
  }

  function KindBytes(kind: Kind): seq<Byte> {
    match kind
    case LinkTo(target) => Field(SYMLINK) + Field(target)
    case Directory => Field(DIRECTORY)
    case File(size, contents) => Field(FILE) + (Field(Decimal(size)) + contents)
  }

  function NodeBytes(node: Node): seq<Byte> {
    Field(node.path) + (Field(Decimal(node.mode)) + KindBytes(node.kind))
  }

  function Nodes(nodes: seq<Node>): seq<Byte> {
    if nodes == [] then [] else NodeBytes(nodes[0]) + Nodes(nodes[1..])
  }

  function Tree(rootMode: nat, nodes: seq<Node>): seq<Byte> {
    Field(DOT) + (Field(Decimal(rootMode)) + Nodes(nodes))
  }

  // ----- Reading it back -----

  datatype KindCut = KindCut(kind: Kind, rest: seq<Byte>)

  datatype NodeCut = NodeCut(node: Node, rest: seq<Byte>)

  function CutNumber(s: seq<Byte>): (cut: Option<(nat, seq<Byte>)>)
    ensures cut.Some? ==> |cut.value.1| < |s|
  {
    var cut := CutField(s);
    if cut.None? || FromDigits(cut.value.value, TEN) < 0 then None
    else Some((FromDigits(cut.value.value, TEN), cut.value.rest))
  }

  function CutKind(s: seq<Byte>): (cut: Option<KindCut>)
    ensures cut.Some? ==> |cut.value.rest| <= |s|
  {
    var name := CutField(s);
    if name.None? then None
    else if name.value.value == SYMLINK then
      var target := CutField(name.value.rest);
      if target.None? then None else Some(KindCut(LinkTo(target.value.value), target.value.rest))
    else if name.value.value == DIRECTORY then Some(KindCut(Directory, name.value.rest))
    else if name.value.value == FILE then
      var size := CutNumber(name.value.rest);
      if size.None? || |size.value.1| < size.value.0 then None
      else Some(KindCut(File(size.value.0, size.value.1[..size.value.0]), size.value.1[size.value.0..]))
    else None
  }

  function CutNode(s: seq<Byte>): (cut: Option<NodeCut>)
    ensures cut.Some? ==> |cut.value.rest| < |s|
  {
    var path := CutField(s);
    if path.None? then None
    else
      var mode := CutNumber(path.value.rest);
      if mode.None? then None
      else
        var kind := CutKind(mode.value.1);
        if kind.None? then None
        else Some(NodeCut(Node(path.value.value, mode.value.0, kind.value.kind), kind.value.rest))
  }

  function ReadNodes(s: seq<Byte>): Option<seq<Node>>
    decreases |s|
  {
    if s == [] then Some([])
    else
      var cut := CutNode(s);
      if cut.None? then None
      else
        var later := ReadNodes(cut.value.rest);
        if later.None? then None else Some([cut.value.node] + later.value)
  }

  function ReadTree(s: seq<Byte>): Option<(nat, seq<Node>)> {
    var root := CutField(s);
    if root.None? || root.value.value != DOT then None
    else
      var mode := CutNumber(root.value.rest);
      if mode.None? then None
      else
        var nodes := ReadNodes(mode.value.1);
        if nodes.None? then None else Some((mode.value.0, nodes.value))
  }

  lemma NamesAreShort()
    ensures Short(SYMLINK) && Short(DIRECTORY) && Short(FILE) && Short(DOT)
  {
    Capacities();
  }

  lemma NumberRoundTrip(n: nat, rest: seq<Byte>)
    requires Short(Decimal(n))
    ensures CutNumber(Field(Decimal(n)) + rest) == Some((n, rest))
  {
    FieldRoundTrip(Decimal(n), rest);
    DigitsRoundTrip(n, TEN);
  }

  lemma FileRoundTrip(size: nat, contents: seq<Byte>, rest: seq<Byte>)
    requires Short(Decimal(size)) && |contents| == size
    ensures CutKind(KindBytes(File(size, contents)) + rest) == Some(KindCut(File(size, contents), rest))
  {
    var sized := Field(Decimal(size)) + contents;
    NamesAreShort();
    AppendAssociates(Field(FILE), sized, rest);
    FieldRoundTrip(FILE, sized + rest);
    AppendAssociates(Field(Decimal(size)), contents, rest);
    NumberRoundTrip(size, contents + rest);
    assert (contents + rest)[..size] == contents && (contents + rest)[size..] == rest;
  }

  lemma KindRoundTrip(kind: Kind, rest: seq<Byte>)
    requires Node([], 0, kind).Valid()
    ensures CutKind(KindBytes(kind) + rest) == Some(KindCut(kind, rest))
  {
    NamesAreShort();
    match kind
    case LinkTo(target) =>
      AppendAssociates(Field(SYMLINK), Field(target), rest);
      FieldRoundTrip(SYMLINK, Field(target) + rest);
      FieldRoundTrip(target, rest);
    case Directory =>
      FieldRoundTrip(DIRECTORY, rest);
    case File(size, contents) =>
      FileRoundTrip(size, contents, rest);
  }

  lemma NodeRoundTrip(node: Node, rest: seq<Byte>)
    requires node.Valid()
    ensures CutNode(NodeBytes(node) + rest) == Some(NodeCut(node, rest))
  {
    var mode, kind := Field(Decimal(node.mode)), KindBytes(node.kind);
    AppendAssociates(Field(node.path), mode + kind, rest);
    AppendAssociates(mode, kind, rest);
    FieldRoundTrip(node.path, mode + (kind + rest));
    NumberRoundTrip(node.mode, kind + rest);
    Capacities();
    KindRoundTrip(node.kind, rest);
  }

  lemma {:induction false} NodesRoundTrip(nodes: seq<Node>)
    requires forall node | node in nodes :: node.Valid()
    ensures ReadNodes(Nodes(nodes)) == Some(nodes)
  {
    if nodes != [] {
      assert forall node | node in nodes[1..] :: node in nodes;
      assert nodes == [nodes[0]] + nodes[1..];
      NodesRoundTrip(nodes[1..]);
      NodeRoundTrip(nodes[0], Nodes(nodes[1..]));
    }
  }

  /** The tree is read back from what was hashed. */
  lemma TreeRoundTrip(rootMode: nat, nodes: seq<Node>)
    requires Short(Decimal(rootMode)) && forall node | node in nodes :: node.Valid()
    ensures ReadTree(Tree(rootMode, nodes)) == Some((rootMode, nodes))
  {
    NamesAreShort();
    FieldRoundTrip(DOT, Field(Decimal(rootMode)) + Nodes(nodes));
    NumberRoundTrip(rootMode, Nodes(nodes));
    NodesRoundTrip(nodes);
  }

  /** Equal bytes, equal trees: paths, modes, link targets, sizes and contents. */
  lemma TreeIsUnambiguous(aMode: nat, a: seq<Node>, bMode: nat, b: seq<Node>)
    requires Short(Decimal(aMode)) && Short(Decimal(bMode)) && forall node | node in a + b :: node.Valid()
    ensures Tree(aMode, a) == Tree(bMode, b) <==> aMode == bMode && a == b
  {
    assert forall node | node in a || node in b :: node in a + b;
    TreeRoundTrip(aMode, a);
    TreeRoundTrip(bMode, b);
  }

  /** Were fewer or more bytes read than `lstat` said, a file's contents could pass for another entry. */
  lemma SizesMustMatch(rootMode: nat, path: seq<Byte>, mode: nat, other: Node)
    ensures Tree(rootMode, [Node(path, mode, File(0, NodeBytes(other)))])
            == Tree(rootMode, [Node(path, mode, File(0, [])), other])
  {
    var whole, empty := Node(path, mode, File(0, NodeBytes(other))), Node(path, mode, File(0, []));
    var prefix := Field(path) + Field(Decimal(mode)) + Field(FILE) + Field(Decimal(0));
    assert NodeBytes(whole) == prefix + NodeBytes(other);
    assert NodeBytes(empty) == prefix;
    assert [whole][1..] == [] && [empty, other][1..] == [other] && [other][1..] == [];
    assert Nodes([whole]) == NodeBytes(whole) + [] == prefix + NodeBytes(other);
    assert Nodes([empty, other]) == prefix + Nodes([other]) && Nodes([other]) == NodeBytes(other) + [];
  }

  // ----- Hashing -----

  const READ_SIZE := 1024 * 1024

  function SizeOf(node: Node): nat {
    if node.kind.File? then node.kind.size else 0
  }

  function TotalSize(nodes: seq<Node>): nat {
    if nodes == [] then 0 else TotalSize(nodes[..|nodes| - 1]) + SizeOf(nodes[|nodes| - 1])
  }

  lemma {:induction false} TotalGrows(nodes: seq<Node>, n: nat)
    requires n <= |nodes|
    ensures TotalSize(nodes[..n]) <= TotalSize(nodes)
    decreases |nodes| - n
  {
    if n == |nodes| {
      assert nodes[..n] == nodes;
    } else {
      TotalGrows(nodes, n + 1);
      assert nodes[..n + 1][..n] == nodes[..n];
    }
  }

  lemma {:induction false} NodesAppend(nodes: seq<Node>, node: Node)
    ensures Nodes(nodes + [node]) == Nodes(nodes) + NodeBytes(node)
  {
    if nodes == [] {
      assert [node][1..] == [];
    } else {
      NodesAppend(nodes[1..], node);
      assert (nodes + [node])[1..] == nodes[1..] + [node];
      AppendAssociates(NodeBytes(nodes[0]), Nodes(nodes[1..]), NodeBytes(node));
    }
  }

  /** The contents of an open file, read to its end. */
  method DigestContents(digested: seq<Byte>, contents: seq<Byte>) returns (stream: seq<Byte>)
    ensures stream == digested + contents
  {
    stream := digested;
    var at := 0;
    while at < |contents|
      invariant at <= |contents| && stream == digested + contents[..at]
    {
      var next := if |contents| - at < READ_SIZE then |contents| else at + READ_SIZE;
      stream := stream + contents[at..next];
      assert contents[..next] == contents[..at] + contents[at..next];
      at := next;
    }
  }

  method DigestKind(digested: seq<Byte>, kind: Kind) returns (stream: seq<Byte>)
    ensures stream == digested + KindBytes(kind)
  {
    match kind {
      case LinkTo(target) =>
        stream := digested + Field(SYMLINK);
        stream := stream + Field(target);
        AppendAssociates(digested, Field(SYMLINK), Field(target));
      case Directory =>
        stream := digested + Field(DIRECTORY);
      case File(size, contents) =>
        stream := digested + Field(FILE);
        stream := stream + Field(Decimal(size));
        stream := DigestContents(stream, contents);
        AppendAssociates(digested + Field(FILE), Field(Decimal(size)), contents);
        AppendAssociates(digested, Field(FILE), Field(Decimal(size)) + contents);
    }
  }

  method DigestNode(digested: seq<Byte>, node: Node) returns (stream: seq<Byte>)
    ensures stream == digested + NodeBytes(node)
  {
    var mode := Field(Decimal(node.mode));
    stream := digested + Field(node.path);
    stream := stream + mode;
    stream := DigestKind(stream, node.kind);
    AppendAssociates(digested + Field(node.path), mode, KindBytes(node.kind));
    AppendAssociates(digested, Field(node.path), mode + KindBytes(node.kind));
  }

  /** Both bounds hold, and the second `lstat` of each file is the first again. */
  ghost predicate Hashable(walk: seq<Node>, changed: nat -> bool, maxEntries: nat, maxBytes: nat) {
    && |walk| <= maxEntries && TotalSize(walk) <= maxBytes
    && forall i: nat | i < |walk| && walk[i].kind.File? :: !changed(i)
  }

  method DigestWalk(digested: seq<Byte>, walk: seq<Node>, changed: nat -> bool, maxEntries: nat, maxBytes: nat)
    returns (stream: Option<seq<Byte>>)
    ensures stream.Some? <==> Hashable(walk, changed, maxEntries, maxBytes)
    ensures stream.Some? ==> stream.value == digested + Nodes(walk)
  {
    var sofar, count, bytes := digested, 0, 0;
    assert walk[..0] == [];
    while count < |walk|
      invariant 0 <= count <= |walk|
      invariant bytes == TotalSize(walk[..count])
      invariant Hashable(walk[..count], changed, maxEntries, maxBytes)
      invariant sofar == digested + Nodes(walk[..count])
    {
      HashableNext(walk, count, changed, maxEntries, maxBytes);
      NextNodes(digested, walk, count);
      if count + 1 > maxEntries {
        return None;
      }
      bytes := bytes + SizeOf(walk[count]);
      if bytes > maxBytes {
        return None;
      }
      sofar := DigestNode(sofar, walk[count]);
      if walk[count].kind.File? && changed(count) {
        return None;
      }
      count := count + 1;
    }
    assert walk[..count] == walk;
    stream := Some(sofar);
  }

  lemma HashableNext(walk: seq<Node>, n: nat, changed: nat -> bool, maxEntries: nat, maxBytes: nat)
    requires n < |walk| && Hashable(walk[..n], changed, maxEntries, maxBytes)
    ensures TotalSize(walk[..n + 1]) == TotalSize(walk[..n]) + SizeOf(walk[n])
    ensures Hashable(walk[..n + 1], changed, maxEntries, maxBytes) <==>
            && n + 1 <= maxEntries
            && TotalSize(walk[..n + 1]) <= maxBytes
            && (walk[n].kind.File? ==> !changed(n))
    ensures Hashable(walk, changed, maxEntries, maxBytes) ==> Hashable(walk[..n + 1], changed, maxEntries, maxBytes)
  {
    NextSize(walk, n);
    var before, after := walk[..n], walk[..n + 1];
    assert forall i: nat | i < n :: after[i] == before[i] == walk[i];
    assert after[n] == walk[n];
  }

  /** The bytes hashed for a walk of the tree, where it may be hashed. */
  method HashTree(rootMode: nat, walk: seq<Node>, changed: nat -> bool, maxEntries: nat, maxBytes: nat)
    returns (digested: Option<seq<Byte>>)
    ensures digested.Some? <==> Hashable(walk, changed, maxEntries, maxBytes)
    ensures digested.Some? ==> digested.value == Tree(rootMode, walk)
  {
    var stream := Field(DOT);
    stream := stream + Field(Decimal(rootMode));
    digested := DigestWalk(stream, walk, changed, maxEntries, maxBytes);
    AppendAssociates(Field(DOT), Field(Decimal(rootMode)), Nodes(walk));
  }

  lemma NextSize(walk: seq<Node>, n: nat)
    requires n < |walk|
    ensures TotalSize(walk[..n + 1]) == TotalSize(walk[..n]) + SizeOf(walk[n])
    ensures TotalSize(walk[..n + 1]) <= TotalSize(walk)
  {
    assert walk[..n + 1][..n] == walk[..n];
    TotalGrows(walk, n + 1);
  }

  lemma NextNodes(digested: seq<Byte>, walk: seq<Node>, n: nat)
    requires n < |walk|
    ensures digested + Nodes(walk[..n + 1]) == digested + Nodes(walk[..n]) + NodeBytes(walk[n])
  {
    assert walk[..n + 1] == walk[..n] + [walk[n]];
    NodesAppend(walk[..n], walk[n]);
    AppendAssociates(digested, Nodes(walk[..n]), NodeBytes(walk[n]));
  }
}
