/** The circular list of decoy payloads. */
module PayloadRing {
  import opened Common

  const BUFFLEN := 1200

  /** A payload file: whether it opens and closes, and before which byte reading it fails (None: never). */
  datatype File = File(content: Bytes, opens: bool, badAt: Option<nat>, closes: bool) {
    predicate Readable() {
      opens && closes && (badAt.Some? ==> badAt.value > |content|)
    }

    /** Where reading stops. */
    function Stop(): (k: nat)
      ensures k <= |content|
    {
      if badAt.Some? && badAt.value < |content| then badAt.value else |content|
    }
  }

  /** One -b or -u option: a file, or the INVITE text (None when the URI is refused). */
  datatype Input = Custom(file: File) | Invite(text: Option<Bytes>) | Unknown

  /** A stream as the C library keeps it, with its two indicators. */
  class Stream {
    const file: File
    var pos: nat
    var eof: bool
    var error: bool

    ghost predicate Valid()
      reads this
    {
      && pos <= file.Stop()
      && (eof ==> pos == |file.content| && !error)
      && (error ==> file.badAt == Some(pos))
    }

    constructor (f: File)
      ensures Valid() && file == f && pos == 0 && !eof && !error
    {
      file, pos, eof, error := f, 0, false, false;
    }

    /** Delivers fewer bytes than asked for only at the end of the file or on an error, and then says which. */
    method Fread(n: nat) returns (bytes: Bytes)
      requires Valid() && !eof && !error
      modifies this`pos, this`eof, this`error
      ensures Valid() && old(pos) <= pos && bytes == file.content[old(pos)..pos] && |bytes| <= n
      ensures eof || error <==> |bytes| < n
      ensures eof ==> file.badAt != Some(|file.content|)
    {
      var stop := file.Stop();
      var upTo := if pos + n <= stop then pos + n else stop;
      bytes := file.content[pos..upTo];
      pos := upTo;
      if |bytes| < n {
        if file.badAt == Some(pos) { error := true; } else { eof := true; }
      }
    }
  }

  /** Whether a node of BUFFLEN bytes takes the input, and what it then holds. */
  function Fill(input: Input): (r: Option<Bytes>)
  {
    match input
    case Custom(file) => if file.Readable() && |file.content| < BUFFLEN then Some(file.content) else None
    case Invite(text) => if text.Some? && |text.value| < BUFFLEN then text else None
    case Unknown => None
  }

  /** make_custom: reads until the end of the file is seen or the buffer is full. The end is only seen
      when a read comes back short, so a file that just fills the buffer is refused. */
  method MakeCustom(file: File) returns (r: Option<Bytes>)
    ensures r == if file.Readable() && |file.content| < BUFFLEN then Some(file.content) else None
  {
    if !file.opens { return None; }
    var stream := new Stream(file);
    var buffer: Bytes := [];
    while !stream.eof && !stream.error && |buffer| < BUFFLEN
      invariant stream.Valid() && stream.file == file && buffer == file.content[..stream.pos] && |buffer| <= BUFFLEN
      invariant !stream.eof && !stream.error ==> stream.pos == 0 || |buffer| == BUFFLEN
      invariant stream.eof ==> |buffer| < BUFFLEN && file.badAt != Some(|file.content|)
      invariant stream.error ==> |buffer| < BUFFLEN
      decreases BUFFLEN - |buffer|, if stream.eof || stream.error then 0 else 1
    {
      var more := stream.Fread(BUFFLEN - |buffer|);
      buffer := buffer + more;
    }
    if stream.error { return None; }
    if !stream.eof { return None; }
    assert file.content[..|file.content|] == file.content;
    r := if file.closes then Some(buffer) else None;
  }

  /** A file of 1200 bytes, which the error message allows and the loop refuses; without its first byte it is accepted. */
  lemma FullFileIsRefused() returns (content: Bytes)
    ensures |content| == 1200 && Fill(Custom(File(content, true, None, true))) == None
    ensures Fill(Custom(File(content[1..], true, None, true))) == Some(content[1..])
  {
    content := seq(1200, i => 0);
  }

  /** The switch over the kind of payload. */
  method FillNode(input: Input) returns (r: Option<Bytes>)
    ensures r == Fill(input)
  {
    match input
    case Custom(file) => r := MakeCustom(file);
    case Invite(text) => r := if text.Some? && |text.value| < BUFFLEN then text else None;
    case Unknown => r := None;
  }

  /** Which input the k-th call returns, of n. */
  function Turn(n: nat, k: nat): (i: nat)
    requires n > 0
    ensures i < n
  {
    n - 1 - k % n
  }

  /** The k-th node met when following `next` from node j of n. */
  function Back(n: nat, j: nat, k: nat): (i: nat)
    requires j < n && k <= n
    ensures k < n ==> i < n
    ensures k == n ==> i == j
  {
    if k <= j then j - k else n + j - k
  }

  class Node {
    var payload: Bytes
    var next: Node?

    constructor ()
      ensures payload == [] && next == null
    {
      payload, next := [], null;
    }
  }

  /** The nodes in the order in which `next` meets them from node j. */
  function Tour(nodes: seq<Node>, j: nat): seq<Node>
    requires j < |nodes|
  {
    seq(|nodes|, k requires 0 <= k < |nodes| => nodes[Back(|nodes|, j, k)])
  }

  ghost function Elements(s: seq<Node>): set<Node> {
    set x | x in s
  }

  predicate Distinct(s: seq<Node>) {
    forall i, j | 0 <= i < j < |s| :: s[i] != s[j]
  }

  /** What is left of the tour after its k-th node has gone, and that only the last step leads back. */
  lemma FreeNext(tour: seq<Node>, k: nat)
    requires k < |tour| && Distinct(tour)
    ensures tour[k] in Elements(tour[k..]) && Elements(tour[k..]) - {tour[k]} == Elements(tour[k + 1..])
    ensures k + 1 < |tour| ==> tour[k + 1] != tour[0]
    ensures k + 1 == |tour| ==> Elements(tour[k + 1..]) == {}
  {
    assert tour[k..] == [tour[k]] + tour[k + 1..];
  }

  class Ring {
    var current: Node?
    ghost var nodes: seq<Node>       // in the order of the inputs
    ghost var served: nat            // calls to Get since setup
    ghost var live: set<Node>        // allocated and not yet freed

    constructor ()
      ensures current == null && nodes == [] && live == {} && served == 0
    {
      current, nodes, live, served := null, [], {}, 0;
    }

    /** Each node's successor is the node of the previous input; the first one's is the last. */
    ghost predicate Cycle()
      reads this, nodes
    {
      && (forall i, j | 0 <= i < j < |nodes| :: nodes[i] != nodes[j])
      && (forall i | 0 <= i < |nodes| :: nodes[i].next == nodes[if i == 0 then |nodes| - 1 else i - 1])
      && live == (set x | x in nodes)
    }

    ghost predicate Valid()
      reads this, nodes
    {
      Cycle() && nodes != [] && current == nodes[Turn(|nodes|, served)]
    }

    method Malloc(ok: bool) returns (node: Node?)
      modifies this`live
      ensures ok <==> node != null
      ensures node != null ==> fresh(node) && live == old(live) + {node}
      ensures node == null ==> live == old(live)
    {
      node := null;
      if ok {
        node := new Node();
        live := live + {node};
      }
    }

    /** Freeing needs a node that is still allocated. */
    method Free(node: Node)
      requires node in live
      modifies this`live
      ensures live == old(live) - {node}
    {
      live := live - {node};
    }

    /** Following a pointer needs the node to be allocated. */
    method Next(node: Node) returns (next: Node?)
      requires node in live
      ensures next == node.next
    {
      next := node.next;
    }

    /** Puts a new node behind the first one. */
    method Link(node: Node)
      requires Cycle0(node)
      modifies this`current, this`nodes, node, nodes
      ensures nodes == old(nodes) + [node] && Cycle() && current == nodes[0]
      ensures forall i | 0 <= i < |old(nodes)| :: nodes[i].payload == old(nodes[i].payload)
    {
      if current != null {
        var next := Next(current);
        current.next := node;
        node.next := next;
      } else {
        current := node;
        node.next := node;
      }
      nodes := nodes + [node];
      assert live == (set x | x in nodes);
    }

    /** The state between allocation of a node and its linking. */
    ghost predicate Cycle0(node: Node)
      reads this, nodes
    {
      && node !in nodes
      && (forall i, j | 0 <= i < j < |nodes| :: nodes[i] != nodes[j])
      && (forall i | 0 <= i < |nodes| :: nodes[i].next == nodes[if i == 0 then |nodes| - 1 else i - 1])
      && live == (set x | x in nodes) + {node}
      && current == (if nodes == [] then null else nodes[0])
    }

    lemma TourIsOnce(j: nat)
      requires Cycle() && j < |nodes|
      ensures |Tour(nodes, j)| == |nodes|
      ensures Distinct(Tour(nodes, j)) && Elements(Tour(nodes, j)) == live
    {
      forall x | x in nodes ensures x in Tour(nodes, j) {
        var i :| 0 <= i < |nodes| && nodes[i] == x;
        var b := if i == j then 0 else Back(|nodes|, j, i);
        assert Back(|nodes|, j, b) == i && Tour(nodes, j)[b] == x;
      }
    }

    lemma TourFollowsNext(j: nat)
      requires Cycle() && j < |nodes|
      ensures Tour(nodes, j)[0] == nodes[j]
      ensures forall k | 0 <= k < |nodes| - 1 :: Tour(nodes, j)[k].next == Tour(nodes, j)[k + 1]
      ensures Tour(nodes, j)[|nodes| - 1].next == nodes[j]
    {
    }

    /** Frees every node exactly once, whichever node is current; nothing is read after it is freed. */
    method Cleanup()
      requires Cycle() && (if nodes == [] then current == null else current in nodes)
      modifies this`live
      ensures live == {}
    {
      var node := current;
      if node == null { return; }
      ghost var j :| 0 <= j < |nodes| && nodes[j] == current;
      ghost var tour := Tour(nodes, j);
      TourIsOnce(j);
      TourFollowsNext(j);
      assert tour[0..] == tour;
      hide *;
      ghost var k := 0;
      while node != null
        invariant 0 <= k < |tour| && node == tour[k] && live == Elements(tour[k..])
        decreases |tour| - k
      {
        FreeNext(tour, k);
        var next := Next(node);
        assert next == if k + 1 < |tour| then tour[k + 1] else current;
        Free(node);
        k := k + 1;
        if next == current { break; }
        node := next;
      }
    }

    /** The ring under construction: the first node is current. */
    ghost predicate Building()
      reads this, nodes
    {
      Cycle() && current == (if nodes == [] then null else nodes[0])
    }

    /** One pass of the setup loop: allocate, link, then fill. A node whose filling failed stays linked. */
    method Extend(input: Input, mallocOk: bool) returns (ok: bool)
      requires Building()
      modifies this`current, this`nodes, this`live, nodes
      ensures Building()
      ensures ok <==> mallocOk && Fill(input).Some?
      ensures old(nodes) <= nodes && |nodes| <= |old(nodes)| + 1 && (ok ==> |nodes| == |old(nodes)| + 1)
      ensures forall i | |old(nodes)| <= i < |nodes| :: fresh(nodes[i])
      ensures forall i | 0 <= i < |old(nodes)| :: nodes[i].payload == old(nodes[i].payload)
      ensures ok ==> nodes[|old(nodes)|].payload == Fill(input).value
    {
      var node := Malloc(mallocOk);
      if node == null { return false; }
      Link(node);
      var filled := FillNode(input);
      ok := filled.Some?;
      if ok { node.payload := filled.value; }
    }

    /** Builds the ring from the option list; on any failure everything allocated is freed. */
    method Setup(inputs: seq<Input>, mallocs: seq<bool>) returns (ok: bool)
      requires current == null && nodes == [] && live == {} && served == 0
      requires |mallocs| == |inputs|
      modifies this
      ensures ok <==> inputs != [] && forall i | 0 <= i < |inputs| :: mallocs[i] && Fill(inputs[i]).Some?
      ensures ok ==> Valid() && served == 0 && fresh(nodes) && |nodes| == |inputs|
      ensures ok ==> forall i | 0 <= i < |inputs| :: nodes[i].payload == Fill(inputs[i]).value
      ensures !ok ==> live == {}
    {
      var i := 0;
      while i < |inputs|
        invariant 0 <= i <= |inputs| && |nodes| == i
        invariant Building() && fresh(nodes) && served == 0
        invariant forall j | 0 <= j < i :: mallocs[j] && Fill(inputs[j]).Some? && nodes[j].payload == Fill(inputs[j]).value
      {
        ok := Extend(inputs[i], mallocs[i]);
        if !ok {
          Cleanup();
          return;
        }
        i := i + 1;
      }
      if current == null { return false; }
      current := Next(current);
      ok := true;
    }

    /** Hands out the current payload and moves on. */
    method Get() returns (payload: Bytes)
      requires Valid()
      modifies this`current, this`served
      ensures Valid() && served == old(served) + 1
      ensures payload == nodes[Turn(|nodes|, old(served))].payload
    {
      payload := current.payload;
      TurnStep(|nodes|, served);
      current := Next(current);
      served := served + 1;
    }
  }

  lemma TurnStep(n: nat, k: nat)
    requires n > 0
    ensures Turn(n, k + 1) == if Turn(n, k) == 0 then n - 1 else Turn(n, k) - 1
  {
    var q := k / n;
    assert k == n * q + k % n;
    if k % n == n - 1 {
      assert k + 1 == n * (q + 1);
      assert (k + 1) % n == 0 by { MultipleMod(n, q + 1, 0); }
    } else {
      MultipleMod(n, q, k % n + 1);
    }
  }

  /** Any n calls in a row return every input exactly once. */
  lemma {:induction false} EveryWindowServesAll(n: nat, start: nat, i: nat)
    requires i < n
    ensures exists k :: start <= k < start + n && Turn(n, k) == i
    ensures forall k, l | start <= k < l < start + n :: Turn(n, k) != Turn(n, l)
  {
    var target := n - 1 - i;
    var q, r := start / n, start % n;
    assert start == n * q + r;
    var k := if r <= target then n * q + target else n * (q + 1) + target;
    assert n * (q + 1) == n * q + n;
    MultipleMod(n, q, target);
    MultipleMod(n, q + 1, target);
    assert start <= k < start + n && Turn(n, k) == i;
    forall k, l | start <= k < l < start + n ensures Turn(n, k) != Turn(n, l) {
      DistinctMod(n, k, l);
    }
  }

  lemma DistinctMod(n: nat, k: nat, l: nat)
    requires k < l < k + n
    ensures k % n != l % n
  {
    var q := k / n;
    assert k == n * q + k % n && n * (q + 1) == n * q + n;
    if k % n + (l - k) < n {
      MultipleMod(n, q, k % n + (l - k));
    } else {
      MultipleMod(n, q + 1, k % n + (l - k) - n);
    }
  }

  // ------------------------------------------------------------------- order of the rows

  /** The rows from the last to the first. */
  function BottomUp<T>(rows: seq<T>): seq<T> {
    seq(|rows|, i requires 0 <= i < |rows| => rows[|rows| - 1 - i])
  }

  lemma BottomUpEnds<T>(rows: seq<T>, row: T)
    ensures BottomUp(rows + [row]) == [row] + BottomUp(rows)
    ensures BottomUp([row] + rows) == BottomUp(rows) + [row]
  {
  }

  /** A payload row of the configuration. */
  datatype Row<T> = Row(enabled: bool, payload: T)

  function EnabledPayloads<T>(rows: seq<Row<T>>): seq<T> {
    if rows == [] then []
    else (if rows[0].enabled then [rows[0].payload] else []) + EnabledPayloads(rows[1..])
  }

  lemma {:induction false} EnabledSnoc<T>(rows: seq<Row<T>>, row: Row<T>)
    ensures EnabledPayloads(rows + [row]) == EnabledPayloads(rows) + (if row.enabled then [row.payload] else [])
  {
    if rows == [] {
      assert [row][1..] == [];
    } else {
      var first := if rows[0].enabled then [rows[0].payload] else [];
      assert (rows + [row])[0] == rows[0] && (rows + [row])[1..] == rows[1..] + [row];
      EnabledSnoc(rows[1..], row);
      assert EnabledPayloads(rows + [row]) == first + EnabledPayloads(rows[1..] + [row]);
    }
  }

  /** Every row gives its payload if it is enabled, nothing if it is not, in its place among the others. */
  lemma {:induction false} EnabledExactly<T>(before: seq<Row<T>>, row: Row<T>, behind: seq<Row<T>>)
    ensures EnabledPayloads(before + [row] + behind)
         == EnabledPayloads(before) + (if row.enabled then [row.payload] else []) + EnabledPayloads(behind)
  {
    var all := before + [row] + behind;
    if before == [] {
      assert all[0] == row && all[1..] == behind;
    } else {
      var rest := before[1..] + [row] + behind;
      assert all[0] == before[0] && all[1..] == rest;
      EnabledExactly(before[1..], row, behind);
      var first, own := if before[0].enabled then [before[0].payload] else [], if row.enabled then [row.payload] else [];
      assert EnabledPayloads(all) == first + EnabledPayloads(rest) && EnabledPayloads(before) == first + EnabledPayloads(before[1..]);
      hide EnabledPayloads;
    }
  }

  lemma {:induction false} EnabledBottomUp<T>(rows: seq<Row<T>>)
    ensures EnabledPayloads(BottomUp(rows)) == BottomUp(EnabledPayloads(rows))
  {
    if rows != [] {
      var rest := rows[1..];
      EnabledBottomUp(rest);
      BottomUpEnds(rest, rows[0]);
      assert rows == [rows[0]] + rest;
      EnabledSnoc(BottomUp(rest), rows[0]);
      BottomUpEnds(EnabledPayloads(rest), rows[0].payload);
      assert [] + EnabledPayloads(rest) == EnabledPayloads(rest);
    }
  }

  /** The FakeHTTP script collects all rows, each in front of the earlier ones, and then appends
      the enabled ones to the command line. */
  method PayloadArguments<T>(rows: seq<Row<T>>) returns (arguments: seq<T>)
    ensures arguments == BottomUp(EnabledPayloads(rows))
  {
    var list := [];
    var i := 0;
    while i < |rows|
      invariant 0 <= i <= |rows|
      invariant list == BottomUp(rows[..i])
    {
      BottomUpEnds(rows[..i], rows[i]);
      assert rows[..i + 1] == rows[..i] + [rows[i]];
      list := [rows[i]] + list;
      i := i + 1;
    }
    assert rows[..i] == rows;
    arguments := [];
    i := 0;
    while i < |list|
      invariant 0 <= i <= |list|
      invariant arguments == EnabledPayloads(list[..i])
    {
      EnabledSnoc(list[..i], list[i]);
      assert list[..i + 1] == list[..i] + [list[i]];
      if list[i].enabled { arguments := arguments + [list[i].payload]; }
      i := i + 1;
    }
    assert list[..i] == list;
    EnabledBottomUp(rows);
  }

  /** Rows handed over in reverse come out of the ring in table order, over and over: every further
      round of calls returns the table once more. */
  lemma {:induction false} ReversedListServesTableOrder<T>(rows: seq<T>, rounds: nat)
    requires rows != []
    ensures |BottomUp(rows)| == |rows|
    ensures rows == seq(|rows|, k requires 0 <= k < |rows| => BottomUp(rows)[Turn(|rows|, |rows| * rounds + k)])
  {
    forall k | 0 <= k < |rows| ensures BottomUp(rows)[Turn(|rows|, |rows| * rounds + k)] == rows[k] {
      MultipleMod(|rows|, rounds, k);
    }
  }
}
