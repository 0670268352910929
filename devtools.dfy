/** devtools/js/devtools.js: the node count the panel's injected script computes over the
    inspected page, the list of stores it collects, and the table of stores the panel
    shows. */
module Devtools {
  import opened JsValues

  // ---- the node count --------------------------------------------------------

  /** A DOM node as `scan` sees it: its children, first child first. Following
      `firstChild` and then `nextSibling` visits this sequence in order. */
  datatype Node = Node(children: seq<Node>)

  /** The proper descendants of `n` in document order: each child, followed by that
      child's own descendants. */
  function Descendants(n: Node): seq<Node>
    decreases n, 1
  {
    DescendantsOf(n.children)
  }

  function DescendantsOf(nodes: seq<Node>): seq<Node>
    decreases nodes, 0
  {
    if nodes == [] then [] else [nodes[0]] + Descendants(nodes[0]) + DescendantsOf(nodes[1..])
  }

  /** The number of nodes of the tree rooted at `n`, `n` included. */
  function Size(n: Node): nat
    decreases n, 1
  {
    1 + SizeOf(n.children)
  }

  function SizeOf(nodes: seq<Node>): nat
    decreases nodes, 0
  {
    if nodes == [] then 0 else Size(nodes[0]) + SizeOf(nodes[1..])
  }

  lemma {:induction false} DescendantsOfAppend(a: seq<Node>, b: seq<Node>)
    ensures DescendantsOf(a + b) == DescendantsOf(a) + DescendantsOf(b)
  {
    if a == [] {
      assert a + b == b;
    } else {
      assert (a + b)[0] == a[0] && (a + b)[1..] == a[1..] + b;
      DescendantsOfAppend(a[1..], b);
    }
  }

  /** `scan(node)`: 0 for a missing node; otherwise, walking the children from the first
      along the sibling chain, one plus the child's own count for each child. */
  method Scan(node: Option<Node>) returns (count: nat)
    ensures node.None? ==> count == 0
    ensures node.Some? ==> count == |Descendants(node.value)|
    decreases if node.Some? then node.value else Node([])
  {
    count := 0;
    if node.None? {
      return 0;
    }
    var children := node.value.children;
    var i := 0;
    while i < |children|
      invariant 0 <= i <= |children|
      invariant count == |DescendantsOf(children[..i])|
    {
      var ch := children[i];
      var below := Scan(Some(ch));
      assert children[..i + 1] == children[..i] + [ch];
      DescendantsOfAppend(children[..i], [ch]);
      assert [ch][1..] == [];
      count := count + 1 + below;
      i := i + 1;
    }
    assert children[..i] == children;
  }

  /** The descendant count of a node is the size of its tree minus one: `scan` counts
      every node below `n` and never `n` itself. */
  lemma {:induction false} DescendantCount(nodes: seq<Node>)
    ensures |DescendantsOf(nodes)| == SizeOf(nodes)
    ensures forall d :: d in DescendantsOf(nodes) ==> Size(d) <= SizeOf(nodes)
    decreases nodes
  {
    if nodes != [] {
      var first := nodes[0];
      DescendantCount(first.children);
      DescendantCount(nodes[1..]);
      assert Descendants(first) == DescendantsOf(first.children);
    }
  }

  /** `scan` counts exactly the nodes of the tree below `n`, `n` not among them; a node
      without children counts 0. */
  lemma ScanCountsProperDescendants(n: Node)
    ensures |Descendants(n)| == Size(n) - 1
    ensures n !in Descendants(n)
    ensures n.children == [] ==> |Descendants(n)| == 0
  {
    DescendantCount(n.children);
  }

  // ---- the stores ------------------------------------------------------------

  /** One record of the stores list: a store id and the value the store held. */
  datatype StoreRecord = StoreRecord(id: int, val: Value)

  /** `injectedGetStores`: one record per id of the page's store collection, in its
      iteration order, with the value `getStore(id)` reads from the store of that id. */
  function InjectedGetStores(ids: seq<int>, getStore: int -> Value): (records: seq<StoreRecord>)
    ensures |records| == |ids|
    ensures forall i :: 0 <= i < |ids| ==> records[i].id == ids[i] && records[i].val == getStore(ids[i])
  {
    if ids == [] then []
    else
      var id := ids[|ids| - 1];
      InjectedGetStores(ids[..|ids| - 1], getStore) + [StoreRecord(id, getStore(id))]
  }

  // ---- JSON.stringify ----------------------------------------------------------

  function HexDigit(d: nat): char
    requires d < 16
  {
    if d < 10 then ('0' as int + d) as char else ('a' as int + d - 10) as char
  }

  function HexValue(c: char): nat
  {
    if '0' <= c <= '9' then c as int - '0' as int
    else if 'a' <= c <= 'f' then c as int - 'a' as int + 10
    else 0
  }

  /** The escape of one character in a JSON string, as section 25.5.2.3 (QuoteJSONString)
      of ECMA-262 gives it: short escapes for backspace, tab, line feed, form feed,
      carriage return, quotation mark and backslash, `\u00xx` with lower-case hex for the
      other control characters, and the character itself otherwise. */
  function EscapeChar(c: char): string
  {
    if c as int == 0x08 then "\\b"
    else if c == '\t' then "\\t"
    else if c == '\n' then "\\n"
    else if c as int == 0x0C then "\\f"
    else if c == '\r' then "\\r"
    else if c == '"' then "\\\""
    else if c == '\\' then "\\\\"
    else if (c as int) < 0x20 then "\\u00" + [HexDigit(c as int / 16), HexDigit(c as int % 16)]
    else [c]
  }

  function Escape(s: string): string
  {
    if s == [] then [] else EscapeChar(s[0]) + Escape(s[1..])
  }

  /** A string value serialised as a JSON string. */
  function Quote(s: string): string
  {
    "\"" + Escape(s) + "\""
  }

  /** Reads back the escapes `JSON.stringify` writes in a string body. */
  function Unescape(e: string): string
  {
    if e == [] then []
    else if e[0] == '\\' && |e| >= 2 then
      var c := e[1];
      if c == 'u' && |e| >= 6 && e[2] == '0' && e[3] == '0' then
        [(HexValue(e[4]) * 16 + HexValue(e[5])) as char] + Unescape(e[6..])
      else
        [if c == 'b' then 0x08 as char else if c == 't' then '\t' else if c == 'n' then '\n'
         else if c == 'f' then 0x0C as char else if c == 'r' then '\r' else c] + Unescape(e[2..])
    else [e[0]] + Unescape(e[1..])
  }

  /** The control characters with a two-character escape. */
  predicate ShortEscaped(c: char)
  {
    c as int == 0x08 || c == '\t' || c == '\n' || c as int == 0x0C || c == '\r'
  }

  lemma ControlEscapeReadsBack(c: char, rest: string)
    requires (c as int) < 0x20 && !ShortEscaped(c)
    ensures Unescape(EscapeChar(c) + rest) == [c] + Unescape(rest)
  {
    var hi, lo := c as int / 16, c as int % 16;
    var e := EscapeChar(c) + rest;
    assert EscapeChar(c) == "\\u00" + [HexDigit(hi), HexDigit(lo)];
    assert e[0] == '\\' && e[1] == 'u' && e[2] == '0' && e[3] == '0' && e[4] == HexDigit(hi) && e[5] == HexDigit(lo);
    assert e[6..] == rest;
    assert HexValue(HexDigit(hi)) == hi && HexValue(HexDigit(lo)) == lo;
    assert (hi * 16 + lo) as char == c;
  }

  lemma ShortEscapeReadsBack(c: char, rest: string)
    requires c == '\\' || c == '"' || ShortEscaped(c)
    ensures Unescape(EscapeChar(c) + rest) == [c] + Unescape(rest)
  {
    var e := EscapeChar(c) + rest;
    assert |EscapeChar(c)| == 2 && EscapeChar(c)[0] == '\\' && EscapeChar(c)[1] != 'u';
    assert e[2..] == rest;
  }

  lemma EscapeCharReadsBack(c: char, rest: string)
    ensures Unescape(EscapeChar(c) + rest) == [c] + Unescape(rest)
  {
    if (c as int) < 0x20 && !ShortEscaped(c) {
      ControlEscapeReadsBack(c, rest);
    } else if c == '\\' || c == '"' || ShortEscaped(c) {
      ShortEscapeReadsBack(c, rest);
    } else {
      var e := EscapeChar(c) + rest;
      assert e == [c] + rest;
      assert e[1..] == rest;
    }
  }

  /** The escapes of a JSON string read back to the string: serialising a string loses
      nothing. */
  lemma {:induction false} EscapeReadsBack(s: string)
    ensures Unescape(Escape(s)) == s
  {
    if s != [] {
      EscapeCharReadsBack(s[0], Escape(s[1..]));
      EscapeReadsBack(s[1..]);
    }
  }

  predicate IsHexChar(c: char)
  {
    '0' <= c <= '9' || 'a' <= c <= 'f' || 'A' <= c <= 'F'
  }

  /** The characters of a JSON string between its quotation marks, as section 7 of
      RFC 8259 gives them: read from the left, each is either an unescaped character
      (not a quotation mark, not a backslash, not a control character), a two-character
      escape, or a `\u` escape with four hex digits. */
  predicate JsonChars(e: string)
    decreases |e|
  {
    if e == [] then true
    else if e[0] == '\\' then
      || (|e| >= 2 && (e[1] == '"' || e[1] == '\\' || e[1] == '/' || e[1] == 'b' || e[1] == 'f'
                       || e[1] == 'n' || e[1] == 'r' || e[1] == 't') && JsonChars(e[2..]))
      || (|e| >= 6 && e[1] == 'u' && IsHexChar(e[2]) && IsHexChar(e[3]) && IsHexChar(e[4])
          && IsHexChar(e[5]) && JsonChars(e[6..]))
    else e[0] != '"' && (e[0] as int) >= 0x20 && JsonChars(e[1..])
  }

  lemma EscapeCharIsJson(c: char, rest: string)
    requires JsonChars(rest)
    ensures JsonChars(EscapeChar(c) + rest)
  {
    var e := EscapeChar(c) + rest;
    if (c as int) < 0x20 && !ShortEscaped(c) {
      var hi, lo := c as int / 16, c as int % 16;
      assert EscapeChar(c) == "\\u00" + [HexDigit(hi), HexDigit(lo)];
      assert e[0] == '\\' && e[1] == 'u' && e[2] == '0' && e[3] == '0' && e[4] == HexDigit(hi) && e[5] == HexDigit(lo);
      assert e[6..] == rest;
    } else if c == '\\' || c == '"' || ShortEscaped(c) {
      assert |EscapeChar(c)| == 2 && EscapeChar(c)[0] == '\\';
      assert e[2..] == rest;
    } else {
      assert e == [c] + rest;
      assert e[1..] == rest;
    }
  }

  /** A serialised string is the body of a well-formed JSON string: every quotation mark
      and backslash in it belongs to an escape, and no control character appears raw;
      in particular every quotation mark follows a backslash. */
  lemma {:induction false} EscapeHasNoRawControl(s: string)
    ensures JsonChars(Escape(s))
    ensures forall i :: 0 <= i < |Escape(s)| ==> (Escape(s)[i] as int) >= 0x20
    ensures forall i :: 0 <= i < |Escape(s)| && Escape(s)[i] == '"' ==> i > 0 && Escape(s)[i - 1] == '\\'
  {
    if s != [] {
      EscapeHasNoRawControl(s[1..]);
      EscapeCharIsJson(s[0], Escape(s[1..]));
      var head := EscapeChar(s[0]);
      var tail := Escape(s[1..]);
      assert Escape(s) == head + tail;
      forall i | 0 <= i < |head + tail| && (head + tail)[i] == '"'
        ensures i > 0 && (head + tail)[i - 1] == '\\'
      {
        if i >= |head| {
          assert (head + tail)[i] == tail[i - |head|];
          if i - |head| > 0 {
            assert (head + tail)[i - 1] == tail[i - |head| - 1];
          }
        }
      }
    }
  }

  /** `JSON.stringify(v)`: the text of the value, or `None` (undefined) for undefined.
      Numbers that are not finite serialise as null; object members whose value is
      undefined are skipped. */
  function Stringify(v: Value): Option<string>
    decreases v, 1
  {
    match v
    case Undefined => None
    case Null => Some("null")
    case Bool(b) => Some(if b then "true" else "false")
    case Num(n) => Some(if n.NaN? || n.Infinity? then "null" else NumberString(n))
    case Str(s) => Some(Quote(s))
    case Object(entries) => Some("{" + Members(entries, false) + "}")
  }

  /** The members of an object, comma-separated; `started` tells whether one has been
      written already. */
  function Members(entries: seq<Entry>, started: bool): string
    decreases entries, 0
  {
    if entries == [] then ""
    else
      var e := entries[0];
      match Stringify(e.val)
      case None => Members(entries[1..], started)
      case Some(text) =>
        (if started then "," else "") + Quote(e.key) + ":" + text + Members(entries[1..], true)
  }

  /** The text of a table cell whose `textContent` is set to `JSON.stringify(v)`:
      undefined empties the cell. */
  function Cell(json: Option<string>): string
  {
    match json
    case None => ""
    case Some(text) => text
  }

  /** Only undefined has no JSON text; a string's text is quoted and reads back to the
      string. */
  lemma StringifyMeaning(v: Value)
    ensures Stringify(v).None? <==> v.Undefined?
    ensures v.Str? ==> var t := Stringify(v).value;
              |t| >= 2 && t[0] == '"' && t[|t| - 1] == '"' && Unescape(t[1..|t| - 1]) == v.s
    ensures v.Num? && (v.n.NaN? || v.n.Infinity?) ==> Stringify(v) == Some("null")
  {
    if v.Str? {
      var t := Stringify(v).value;
      assert t[1..|t| - 1] == Escape(v.s);
      EscapeReadsBack(v.s);
    }
  }

  // ---- the stores table --------------------------------------------------------

  /** The body rows `buildStoresView` appends: one per record, in order, with the id's
      text and the value's JSON text. */
  method StoreRows(stores: seq<StoreRecord>) returns (rows: seq<seq<string>>)
    ensures |rows| == |stores|
    ensures forall i :: 0 <= i < |stores| ==>
              rows[i] == [DecimalString(stores[i].id), Cell(Stringify(stores[i].val))]
  {
    rows := [];
    for i := 0 to |stores|
      invariant |rows| == i
      invariant forall j :: 0 <= j < i ==> rows[j] == [DecimalString(stores[j].id), Cell(Stringify(stores[j].val))]
    {
      var r := stores[i];
      rows := rows + [[DecimalString(r.id), Cell(Stringify(r.val))]];
    }
  }

  /** A table as the panel shows it: the header cells and the body rows. */
  datatype Table = Table(header: seq<string>, body: seq<seq<string>>)

  /** The panel's `#sv-view` element. */
  class StoresView {
    /** The tables inside it. */
    var content: seq<Table>

    constructor ()
      ensures content == []
    {
      content := [];
    }

    /** `buildStoresView(result)`: empties the view and appends one table, headed "Id"
        and "Value", with a row per store record. */
    method BuildStoresView(stores: seq<StoreRecord>)
      modifies this
      ensures |content| == 1 && content[0].header == ["Id", "Value"]
      ensures |content[0].body| == |stores|
      ensures forall i :: 0 <= i < |stores| ==>
                content[0].body[i] == [DecimalString(stores[i].id), Cell(Stringify(stores[i].val))]
    {
      content := [];
      var rows := StoreRows(stores);
      content := content + [Table(["Id", "Value"], rows)];
    }
  }
}
