/**
 * libpq keyword/value connection strings: the printer, the scanner-based parser,
 * and the round trip between them.
 */
module ConnStrings {
  import opened Options
  import opened Strings

  datatype Result = Ok(params: map<string, string>) | Bad

  /** White space as Unicode defines it. */
  predicate IsSpace(c: char) {
    var n := c as int;
    || 9 <= n <= 13 || n == 32 || n == 0x85 || n == 0xA0 || n == 0x1680 || 0x2000 <= n <= 0x200a
    || n == 0x2028 || n == 0x2029 || n == 0x202f || n == 0x205f || n == 0x3000
  }

  // ----------------------------------------------------------------- meaning

  function Trimmed(s: string): string {
    if s != [] && IsSpace(s[0]) then Trimmed(s[1..]) else s
  }

  /** The length of the key a string starts with. */
  function KeyLen(s: string): (n: nat)
    ensures n <= |s|
  {
    if s == [] || IsSpace(s[0]) || s[0] == '=' then 0 else 1 + KeyLen(s[1..])
  }

  /** A value and what follows it. */
  datatype Scanned = Scanned(value: string, rest: string)

  function Prepend(c: char, r: Option<Scanned>): Option<Scanned> {
    if r.None? then None else Some(Scanned([c] + r.value.value, r.value.rest))
  }

  /** An unquoted value ends at white space; a backslash takes the next character as it is. */
  function Unquoted(s: string): Option<Scanned> {
    if s == [] then Some(Scanned([], []))
    else if IsSpace(s[0]) then Some(Scanned([], s[1..]))
    else if s[0] == '\\' then if |s| < 2 then None else Prepend(s[1], Unquoted(s[2..]))
    else Prepend(s[0], Unquoted(s[1..]))
  }

  /** A quoted value ends at the closing quote. */
  function Quoted(s: string): Option<Scanned> {
    if s == [] then None
    else if s[0] == '\'' then Some(Scanned([], s[1..]))
    else if s[0] == '\\' then if |s| < 2 then None else Prepend(s[1], Quoted(s[2..]))
    else Prepend(s[0], Quoted(s[1..]))
  }

  function ValueAt(s: string): Option<Scanned>
    requires s != []
  {
    if s[0] == '\'' then Quoted(s[1..]) else Unquoted(s)
  }

  lemma {:induction false} TrimShortens(s: string)
    ensures |Trimmed(s)| <= |s| && (Trimmed(s) != [] ==> !IsSpace(Trimmed(s)[0]))
  {
    if s != [] && IsSpace(s[0]) {
      TrimShortens(s[1..]);
    }
  }

  lemma {:induction false} UnquotedShortens(s: string)
    ensures Unquoted(s).Some? ==> |Unquoted(s).value.rest| <= |s|
  {
    if s == [] || IsSpace(s[0]) {
    } else if s[0] == '\\' {
      if |s| >= 2 {
        UnquotedShortens(s[2..]);
      }
    } else {
      UnquotedShortens(s[1..]);
    }
  }

  lemma {:induction false} QuotedShortens(s: string)
    ensures Quoted(s).Some? ==> |Quoted(s).value.rest| <= |s|
  {
    if s == [] || s[0] == '\'' {
    } else if s[0] == '\\' {
      if |s| >= 2 {
        QuotedShortens(s[2..]);
      }
    } else {
      QuotedShortens(s[1..]);
    }
  }

  /** What follows an equals sign that only space may precede. */
  function PastEquals(t: string): Option<string> {
    var u := if t != [] && t[0] == '=' then t else Trimmed(t);
    if u != [] && u[0] == '=' then Some(u[1..]) else None
  }

  /** The value part of the entry `s` starts with, if it has an equals sign. */
  function AfterEquals(s: string): Option<string> {
    var rest := PastEquals(s[KeyLen(s)..]);
    if rest.None? then None else Some(Trimmed(rest.value))
  }

  lemma AfterEqualsShortens(s: string)
    ensures AfterEquals(s).Some? ==> |AfterEquals(s).value| < |s|
  {
    var t := s[KeyLen(s)..];
    TrimShortens(t);
    var u := if t != [] && t[0] == '=' then t else Trimmed(t);
    if u != [] {
      TrimShortens(u[1..]);
    }
  }

  /** The meaning of a connection string, on top of the parameters read so far. */
  function Parse(s: string, p: map<string, string>): Result
    decreases |s|
  {
    TrimShortens(s);
    var entry := Trimmed(s);
    if entry == [] then Ok(p)
    else
      AfterEqualsShortens(entry);
      var key := entry[..KeyLen(entry)];
      var value := AfterEquals(entry);
      if value.None? then Bad
      else if value.value == [] then Ok(p[key := ""])
      else
        UnquotedShortens(value.value);
        QuotedShortens(value.value[1..]);
        var v := ValueAt(value.value);
        if v.None? then Bad else Parse(v.value.rest, p[key := v.value.value])
  }

  // ----------------------------------------------------------------- printer

  function EscapeChar(c: char): string { if c == ' ' || c == '\'' || c == '\\' then ['\\', c] else [c] }

  function Escape(v: string): string { if v == [] then [] else EscapeChar(v[0]) + Escape(v[1..]) }

  datatype Entry = Entry(key: string, value: string)

  function Print(e: Entry): string { e.key + "=" + Escape(e.value) }

  function Join(es: seq<Entry>): string {
    if es == [] then [] else if |es| == 1 then Print(es[0]) else Print(es[0]) + " " + Join(es[1..])
  }

  ghost predicate KeysDiffer(es: seq<Entry>) { forall i, j :: 0 <= i < j < |es| ==> es[i].key != es[j].key }

  /** `es` lists the parameters that have a value, each once. */
  ghost predicate Lists(es: seq<Entry>, cp: map<string, string>) {
    && KeysDiffer(es)
    && (forall e :: e in es ==> e.value != "" && e.key in cp && cp[e.key] == e.value)
    && (forall k :: k in cp && cp[k] != "" ==> Entry(k, cp[k]) in es)
  }

  ghost predicate Sorted(es: seq<Entry>) { forall i, j :: 0 <= i < j < |es| ==> !StringLess(Print(es[j]), Print(es[i])) }

  /** Puts an entry in its place. */
  method Insert(es: seq<Entry>, x: Entry) returns (r: seq<Entry>, ghost k: nat)
    requires Sorted(es)
    ensures Sorted(r) && k <= |es| && r == es[..k] + [x] + es[k..]
  {
    var i := |es|;
    while i > 0 && StringLess(Print(x), Print(es[i - 1]))
      invariant 0 <= i <= |es|
      invariant forall j :: i <= j < |es| ==> StringLess(Print(x), Print(es[j]))
    {
      i := i - 1;
    }
    k := i;
    r := es[..i] + [x] + es[i..];
    forall a, b | 0 <= a < b < |r|
      ensures !StringLess(Print(r[b]), Print(r[a]))
    {
      InsertedInOrder(es, x, i, a, b);
    }
  }

  lemma NotLessTransitive(a: string, b: string, c: string)
    requires !StringLess(b, a) && !StringLess(c, b)
    ensures !StringLess(c, a)
  {
  }

  lemma InsertedInOrder(es: seq<Entry>, x: Entry, k: nat, a: nat, b: nat)
    requires Sorted(es) && k <= |es| && a < b <= |es|
    requires forall j :: k <= j < |es| ==> StringLess(Print(x), Print(es[j]))
    requires k > 0 ==> !StringLess(Print(x), Print(es[k - 1]))
    ensures var r := es[..k] + [x] + es[k..]; !StringLess(Print(r[b]), Print(r[a]))
  {
    if b == k {
      if a < k - 1 {
        NotLessTransitive(Print(es[a]), Print(es[k - 1]), Print(x));
      }
    } else if a == k {
      StringOrderTotal(Print(x), Print(es[b - 1]));
    }
  }

  lemma ListOneMore(es: seq<Entry>, k: nat, x: Entry, done: map<string, string>)
    requires Lists(es, done) && k <= |es| && x.key !in done
    ensures x.value != "" ==> Lists(es[..k] + [x] + es[k..], done[x.key := x.value])
    ensures x.value == "" ==> Lists(es, done[x.key := x.value])
  {
  }

  /** The connection string: the non-empty entries, sorted by their text. */
  method ConnString(cp: map<string, string>) returns (r: string)
    ensures exists es :: Lists(es, cp) && Sorted(es) && r == Join(es)
    ensures forall es :: Lists(es, cp) && Sorted(es) ==> r == Join(es)
  {
    var kvs: seq<Entry> := [];
    var todo := cp.Keys;
    ghost var done: map<string, string> := map[];
    while todo != {}
      invariant todo <= cp.Keys
      invariant done == map k | k in cp && k !in todo :: cp[k]
      invariant Lists(kvs, done) && Sorted(kvs)
    {
      var k :| k in todo;
      ghost var at: nat := 0;
      ghost var before := kvs;
      if cp[k] != "" {
        kvs, at := Insert(kvs, Entry(k, cp[k]));
      }
      ListOneMore(before, at, Entry(k, cp[k]), done);
      todo := todo - {k};
      done := done[k := cp[k]];
    }
    assert done == cp;
    r := Concatenate(kvs);
    forall es | Lists(es, cp) && Sorted(es)
      ensures r == Join(es)
    {
      Reproducible(cp, kvs, es);
    }
  }

  method Concatenate(es: seq<Entry>) returns (r: string)
    ensures r == Join(es)
  {
    r := [];
    var i := |es|;
    while i > 0
      invariant 0 <= i <= |es|
      invariant r == Join(es[i..])
    {
      i := i - 1;
      assert es[i..][1..] == es[i + 1..];
      r := if i + 1 == |es| then Print(es[i]) else Print(es[i]) + " " + r;
    }
  }

  // ------------------------------------------------------------------ parser

  /** The key that starts at `start` is `k` characters long. */
  predicate KeyAt(s: string, start: nat, k: nat) {
    && start + k <= |s|
    && (forall j :: start <= j < start + k ==> !IsSpace(s[j]) && s[j] != '=')
    && (start + k < |s| ==> IsSpace(s[start + k]) || s[start + k] == '=')
  }

  lemma {:induction false} KeyLenAt(s: string, start: nat, k: nat)
    requires KeyAt(s, start, k)
    ensures KeyLen(s[start..]) == k
    decreases k
  {
    if k > 0 {
      KeyLenAt(s, start + 1, k - 1);
      assert s[start..][1..] == s[start + 1..];
    }
  }

  /** How one entry is parsed, in terms of the places the scanner comes by. */
  lemma ParseEntry(from: string, p: map<string, string>, s: string, start: nat, key: string, rest: Option<string>)
    requires KeyAt(s, start, |key|) && start < |s| && Trimmed(from) == s[start..] && key == s[start..start + |key|]
    requires PastEquals(s[start + |key|..]) == rest
    ensures rest.None? ==> Parse(from, p) == Bad
    ensures rest.Some? && Trimmed(rest.value) == [] ==> Parse(from, p) == Ok(p[key := ""])
    ensures rest.Some? && Trimmed(rest.value) != [] ==>
              var v := ValueAt(Trimmed(rest.value));
              Parse(from, p) == if v.None? then Bad else Parse(v.value.rest, p[key := v.value.value])
  {
    KeyLenAt(s, start, |key|);
    EntryParts(s, start, |key|);
  }

  lemma EntryParts(s: string, start: nat, k: nat)
    requires start + k <= |s| && k == KeyLen(s[start..])
    ensures s[start..][..k] == s[start..start + k]
    ensures s[start..][k..] == s[start + k..]
  {
  }

  lemma TrimOne(s: string, k: nat)
    requires k <= |s| && (k < |s| ==> IsSpace(s[k]))
    ensures Trimmed(s[k..]) == Trimmed(s[if k < |s| then k + 1 else k..])
  {
  }

  datatype Progress = Last(result: Result) | More(params: map<string, string>)

  class Scanner {
    const s: string
    var i: nat

    ghost predicate Valid()
      reads this
    {
      i <= |s|
    }

    constructor (s: string)
      ensures this.s == s && i == 0 && Valid()
    {
      this.s := s;
      i := 0;
    }

    method Next() returns (r: char, ok: bool)
      requires Valid()
      modifies this
      ensures Valid()
      ensures ok ==> old(i) < |s| && i == old(i) + 1 && r == s[old(i)]
      ensures !ok ==> old(i) == |s| == i && r == '\0'
    {
      if i >= |s| {
        return '\0', false;
      }
      r := s[i];
      i := i + 1;
      return r, true;
    }

    method SkipSpaces() returns (r: char, ok: bool)
      requires Valid()
      modifies this
      ensures Valid()
      ensures i >= old(i)
      ensures ok ==> i > old(i) && s[i - 1..] == Trimmed(old(s[i..])) && r == s[i - 1]
      ensures !ok ==> Trimmed(old(s[i..])) == [] && i == |s| && r == '\0'
    {
      r, ok := Next();
      while ok && IsSpace(r)
        invariant Valid()
        invariant i >= old(i)
        invariant ok ==> i > old(i) && r == s[i - 1] && Trimmed(s[i - 1..]) == Trimmed(old(s[i..]))
        invariant !ok ==> i == |s| && Trimmed(old(s[i..])) == [] && r == '\0'
        decreases |s| - i, ok
      {
        TrimOne(s, i - 1);
        r, ok := Next();
      }
    }

    /** Scans a key whose first character is `c`. */
    method ScanKey(c: char) returns (key: string, r: char, ok: bool)
      requires Valid() && i > 0 && c == s[i - 1]
      modifies this
      ensures Valid()
      ensures var start := old(i) - 1;
              && KeyAt(s, start, |key|) && key == s[start..start + |key|]
              && (if ok then i == start + |key| + 1 && r == s[i - 1] else start + |key| == |s| == i && r == '\0')
    {
      ghost var start := i - 1;
      key, r, ok := [], c, true;
      while ok && !IsSpace(r) && r != '='
        invariant Valid() && start + |key| <= |s| && key == s[start..start + |key|]
        invariant if ok then i == start + |key| + 1 && r == s[i - 1] else start + |key| == |s| == i && r == '\0'
        invariant forall j :: start <= j < start + |key| ==> !IsSpace(s[j]) && s[j] != '='
        decreases |s| - i, ok
      {
        assert s[start..start + |key|] + [s[start + |key|]] == s[start..start + |key| + 1];
        key := key + [r];
        r, ok := Next();
      }
    }

    /** Scans up to and over the equals sign; `r` is the character read last. */
    method SkipEquals(r: char, more: bool) returns (ok: bool)
      requires Valid() && (more ==> i > 0 && r == s[i - 1] && (IsSpace(r) || r == '=')) && (!more ==> i == |s| && r == '\0')
      modifies this
      ensures Valid() && i >= old(i)
      ensures PastEquals(old(s[if more then i - 1 else i..])) == if ok then Some(s[i..]) else None
    {
      var c := r;
      ok := more;
      if c != '=' {
        TrimOne(s, if more then i - 1 else i);
        c, ok := SkipSpaces();
      }
      ok := ok && c == '=';
      if ok {
        assert s[i - 1..][1..] == s[i..];
      }
    }

    /** Scans a value whose first character is `c` and that is not quoted. */
    method ScanUnquoted(c: char) returns (value: Option<string>)
      requires Valid() && i > 0 && c == s[i - 1]
      modifies this
      ensures Valid()
      ensures i >= old(i)
      ensures value.None? ==> Unquoted(old(s[i - 1..])) == None
      ensures value.Some? ==> Unquoted(old(s[i - 1..])) == Some(Scanned(value.value, s[i..]))
    {
      ghost var t := s[i - 1..];
      var r, ok, val := c, true, [];
      PrependNothing(Unquoted(t));
      while ok && !IsSpace(r)
        invariant Valid() && i >= old(i)
        invariant ok ==> i > 0 && r == s[i - 1] && Unquoted(t) == PrependAll(val, Unquoted(s[i - 1..]))
        invariant !ok ==> i == |s| && Unquoted(t) == Some(Scanned(val, []))
        decreases |s| - i, ok
      {
        ghost var rest := s[i - 1..];
        if r == '\\' {
          r, ok := Next();
          if !ok {
            return None;
          }
          assert rest[2..] == s[i..];
        } else {
          assert rest[1..] == s[i..];
        }
        PrependMore(val, r, Unquoted(s[i..]));
        val := val + [r];
        PrependToEnd(val, []);
        r, ok := Next();
      }
      if ok {
        assert s[i - 1..][1..] == s[i..];
        PrependToEnd(val, s[i..]);
      }
      return Some(val);
    }

    /** Scans a value whose first character is `c`. */
    method ScanValue(c: char) returns (value: Option<string>)
      requires Valid() && i > 0 && c == s[i - 1]
      modifies this
      ensures Valid() && i >= old(i)
      ensures ValueAt(old(s[i - 1..])) == if value.None? then None else Some(Scanned(value.value, s[i..]))
    {
      if c != '\'' {
        value := ScanUnquoted(c);
      } else {
        assert s[i - 1..][1..] == s[i..];
        value := ScanQuoted();
      }
    }

    /** Parses one entry on top of `p`. */
    method NextEntry(p: map<string, string>) returns (r: Progress)
      requires Valid()
      modifies this
      ensures Valid()
      ensures r.Last? ==> Parse(old(s[i..]), p) == r.result
      ensures r.More? ==> i > old(i) && Parse(old(s[i..]), p) == Parse(s[i..], r.params)
    {
      ghost var from := s[i..];
      var c, ok := SkipSpaces();
      if !ok {
        return Last(Ok(p));
      }
      ghost var start := i - 1;
      var key;
      key, c, ok := ScanKey(c);
      ok := SkipEquals(c, ok);
      ParseEntry(from, p, s, start, key, if ok then Some(s[i..]) else None);
      if !ok {
        return Last(Bad);
      }
      r := ScanRest(p, key);
    }

    /** Parses what follows the equals sign of the entry for `key`. */
    method ScanRest(p: map<string, string>, key: string) returns (r: Progress)
      requires Valid()
      modifies this
      ensures Valid() && i >= old(i)
      ensures var text := Trimmed(old(s[i..]));
              if text == [] then r == Last(Ok(p[key := ""]))
              else
                var v := ValueAt(text);
                if v.None? then r == Last(Bad) else r == More(p[key := v.value.value]) && s[i..] == v.value.rest
    {
      var c, ok := SkipSpaces();
      if !ok {
        return Last(Ok(p[key := ""]));
      }
      var value := ScanValue(c);
      if value.None? {
        return Last(Bad);
      }
      return More(p[key := value.value]);
    }

    /** Scans a quoted value; the opening quote has been read. */
    method ScanQuoted() returns (value: Option<string>)
      requires Valid()
      modifies this
      ensures Valid()
      ensures i >= old(i)
      ensures value.None? ==> Quoted(old(s[i..])) == None
      ensures value.Some? ==> Quoted(old(s[i..])) == Some(Scanned(value.value, s[i..]))
    {
      ghost var t := s[i..];
      var val: string := [];
      PrependNothing(Quoted(t));
      while true
        invariant Valid() && i >= old(i) && Quoted(t) == PrependAll(val, Quoted(s[i..]))
        decreases |s| - i
      {
        ghost var rest := s[i..];
        var r, ok := Next();
        if !ok {
          return None;
        }
        assert rest[1..] == s[i..];
        if r == '\'' {
          PrependToEnd(val, s[i..]);
          return Some(val);
        }
        if r == '\\' {
          r, ok := Next();
          if !ok {
            return None;
          }
          assert rest[2..] == s[i..];
        }
        PrependMore(val, r, Quoted(s[i..]));
        val := val + [r];
      }
    }
  }

  function PrependAll(val: string, r: Option<Scanned>): Option<Scanned> {
    if r.None? then None else Some(Scanned(val + r.value.value, r.value.rest))
  }

  lemma PrependNothing(r: Option<Scanned>)
    ensures PrependAll([], r) == r
  {
    if r.Some? {
      assert [] + r.value.value == r.value.value;
    }
  }

  lemma PrependToEnd(val: string, rest: string)
    ensures PrependAll(val, Some(Scanned([], rest))) == Some(Scanned(val, rest))
  {
    assert val + [] == val;
  }

  lemma PrependMore(val: string, c: char, r: Option<Scanned>)
    ensures PrependAll(val, Prepend(c, r)) == PrependAll(val + [c], r)
  {
    if r.Some? {
      assert val + ([c] + r.value.value) == val + [c] + r.value.value;
    }
  }

  method ParseConnString(name: string) returns (r: Result)
    ensures r == Parse(name, map[])
  {
    var p: map<string, string> := map[];
    var sc := new Scanner(name);
    assert name[0..] == name;
    while true
      invariant sc.Valid() && sc.s == name && fresh(sc)
      invariant Parse(name, map[]) == Parse(name[sc.i..], p)
      decreases |name| - sc.i
    {
      var entry := sc.NextEntry(p);
      match entry
      case Last(result) => return result;
      case More(params) => p := params;
    }
  }

  // -------------------------------------------------------------- round trip

  /** The only white space is the ASCII space. */
  predicate Clean(v: string) { forall i :: 0 <= i < |v| ==> IsSpace(v[i]) ==> v[i] == ' ' }

  predicate IsKey(k: string) { forall i :: 0 <= i < |k| ==> !IsSpace(k[i]) && k[i] != '=' }

  function Tail(s: string): string { if s == [] then [] else s[1..] }

  lemma EscapeFirst(v: string, rest: string)
    requires v != []
    ensures Escape(v) + rest == EscapeChar(v[0]) + (Escape(v[1..]) + rest)
  {
  }

  lemma {:induction false} UnquotedEscape(v: string, rest: string)
    requires Clean(v) && (rest == [] || IsSpace(rest[0]))
    ensures Unquoted(Escape(v) + rest) == Some(Scanned(v, Tail(rest)))
  {
    if v == [] {
      assert Escape(v) + rest == rest;
    } else {
      UnquotedEscape(v[1..], rest);
      var more := Escape(v[1..]) + rest;
      EscapeFirst(v, rest);
      UnquotedChar(v[0], more);
      assert [v[0]] + v[1..] == v;
    }
  }

  /** An escaped character is read back as itself. */
  lemma UnquotedChar(c: char, more: string)
    requires IsSpace(c) ==> c == ' '
    ensures Unquoted(EscapeChar(c) + more) == Prepend(c, Unquoted(more))
  {
  }

  lemma {:induction false} KeyLenOf(key: string, tail: string)
    requires IsKey(key) && tail != [] && tail[0] == '='
    ensures KeyLen(key + tail) == |key|
  {
    if key == [] {
      assert key + tail == tail;
    } else {
      assert (key + tail)[1..] == key[1..] + tail;
      KeyLenOf(key[1..], tail);
    }
  }

  /** Reading an entry whose key is proper leads to what follows its equals sign. */
  lemma PrintedEntry(key: string, text: string, p: map<string, string>)
    requires IsKey(key)
    ensures var s := key + "=" + text;
            var v := Trimmed(text);
            Parse(s, p) == if v == [] then Ok(p[key := ""])
                           else var r := ValueAt(v); if r.None? then Bad else Parse(r.value.rest, p[key := r.value.value])
  {
    var tail := "=" + text;
    var s := key + "=" + text;
    assert s == key + tail;
    KeyLenOf(key, tail);
    assert s[..|key|] == key && s[|key|..] == tail && tail[1..] == text;
    assert !IsSpace(s[0]);
  }

  lemma EscapeStarts(v: string)
    requires v != []
    ensures Escape(v) != [] && Escape(v)[0] != '\''
    ensures IsSpace(Escape(v)[0]) <==> IsSpace(v[0]) && v[0] != ' '
  {
  }

  lemma ParsePrinted(e: Entry, rest: string, p: map<string, string>)
    requires IsKey(e.key) && Clean(e.value) && e.value != "" && (rest == [] || IsSpace(rest[0]))
    ensures Parse(Print(e) + rest, p) == Parse(Tail(rest), p[e.key := e.value])
  {
    var text := Escape(e.value) + rest;
    assert Print(e) + rest == e.key + "=" + text;
    PrintedEntry(e.key, text, p);
    EscapeStarts(e.value);
    UnquotedEscape(e.value, rest);
  }

  ghost function Added(p: map<string, string>, es: seq<Entry>): map<string, string>
    decreases |es|
  {
    if es == [] then p else Added(p[es[0].key := es[0].value], es[1..])
  }

  lemma {:induction false} ParseJoined(es: seq<Entry>, p: map<string, string>)
    requires forall e :: e in es ==> IsKey(e.key) && Clean(e.value) && e.value != ""
    ensures Parse(Join(es), p) == Ok(Added(p, es))
    decreases |es|
  {
    if es != [] {
      var q := p[es[0].key := es[0].value];
      if |es| == 1 {
        assert Print(es[0]) + [] == Join(es);
        ParsePrinted(es[0], [], p);
        assert es[1..] == [];
      } else {
        var rest := " " + Join(es[1..]);
        assert Join(es) == Print(es[0]) + rest && Tail(rest) == Join(es[1..]);
        ParsePrinted(es[0], rest, p);
        ParseJoined(es[1..], q);
      }
    }
  }

  lemma {:induction false} AddedIs(p: map<string, string>, es: seq<Entry>, k: string)
    requires KeysDiffer(es)
    ensures forall i :: 0 <= i < |es| && es[i].key == k ==> k in Added(p, es) && Added(p, es)[k] == es[i].value
    ensures (forall i :: 0 <= i < |es| ==> es[i].key != k) ==> (k in Added(p, es) <==> k in p) && (k in p ==> Added(p, es)[k] == p[k])
    decreases |es|
  {
    if es != [] {
      AddedIs(p[es[0].key := es[0].value], es[1..], k);
      assert forall i :: 0 < i < |es| ==> es[i] == es[1..][i - 1];
    }
  }

  function NonEmpty(cp: map<string, string>): map<string, string> { map k | k in cp && cp[k] != "" :: cp[k] }

  lemma AddedAll(es: seq<Entry>, cp: map<string, string>)
    requires Lists(es, cp)
    ensures Added(map[], es) == NonEmpty(cp)
  {
    forall k
      ensures k in Added(map[], es) <==> k in NonEmpty(cp)
      ensures k in NonEmpty(cp) ==> Added(map[], es)[k] == cp[k]
    {
      AddedIs(map[], es, k);
      assert forall i :: 0 <= i < |es| ==> es[i] in es;
      if k in NonEmpty(cp) {
        assert Entry(k, cp[k]) in es;
      }
    }
  }

  /**
   * Round trip: for keys without white space or "=" and values whose only white
   * space is the ASCII space, parsing the printed string gives back the
   * parameters that have a value, in whatever order they were printed.
   */
  lemma RoundTrip(cp: map<string, string>, es: seq<Entry>)
    requires Lists(es, cp)
    requires forall k :: k in cp && cp[k] != "" ==> IsKey(k) && Clean(cp[k])
    ensures Parse(Join(es), map[]) == Ok(NonEmpty(cp))
  {
    ParseJoined(es, map[]);
    AddedAll(es, cp);
  }

  // --------------------------------------------------- exactly when it holds

  /** How many equals signs there are: each entry read uses up one, and those of its value. */
  ghost function Signs(s: string): nat { if s == [] then 0 else (if s[0] == '=' then 1 else 0) + Signs(s[1..]) }

  lemma {:induction false} SignsOfBoth(a: string, b: string)
    ensures Signs(a + b) == Signs(a) + Signs(b)
  {
    if a == [] {
      assert a + b == b;
    } else {
      assert (a + b)[1..] == a[1..] + b;
      SignsOfBoth(a[1..], b);
    }
  }

  lemma {:induction false} SignsOfKey(k: string)
    requires IsKey(k)
    ensures Signs(k) == 0
  {
    if k != [] {
      SignsOfKey(k[1..]);
    }
  }

  lemma {:induction false} SignsOfTrimmed(s: string)
    ensures Signs(Trimmed(s)) == Signs(s)
  {
    if s != [] && IsSpace(s[0]) {
      SignsOfTrimmed(s[1..]);
    }
  }

  lemma {:induction false} SignsOfEscaped(v: string)
    ensures Signs(Escape(v)) == Signs(v)
  {
    if v != [] {
      SignsOfBoth(EscapeChar(v[0]), Escape(v[1..]));
      SignsOfEscaped(v[1..]);
    }
  }

  lemma SignsOfPrint(e: Entry)
    requires IsKey(e.key)
    ensures Signs(Print(e)) == 1 + Signs(e.value)
  {
    SignsOfBoth(e.key + "=", Escape(e.value));
    SignsOfBoth(e.key, "=");
    SignsOfKey(e.key);
    SignsOfEscaped(e.value);
  }

  ghost predicate SplitsSigns(r: Option<Scanned>, n: nat) { r.Some? ==> Signs(r.value.value) + Signs(r.value.rest) <= n }

  lemma {:induction false} UnquotedSigns(s: string)
    ensures SplitsSigns(Unquoted(s), Signs(s))
  {
    if s != [] && !IsSpace(s[0]) {
      if s[0] != '\\' {
        UnquotedSigns(s[1..]);
      } else if |s| >= 2 {
        assert s[1..][1..] == s[2..];
        UnquotedSigns(s[2..]);
      }
    }
  }

  lemma {:induction false} QuotedSigns(s: string)
    ensures SplitsSigns(Quoted(s), Signs(s))
  {
    if s != [] && s[0] != '\'' {
      if s[0] != '\\' {
        QuotedSigns(s[1..]);
      } else if |s| >= 2 {
        assert s[1..][1..] == s[2..];
        QuotedSigns(s[2..]);
      }
    }
  }

  lemma ValueSigns(s: string)
    requires s != []
    ensures SplitsSigns(ValueAt(s), Signs(s))
  {
    UnquotedSigns(s);
    QuotedSigns(s[1..]);
  }

  lemma AfterEqualsSigns(s: string)
    ensures AfterEquals(s).Some? ==> 1 + Signs(AfterEquals(s).value) <= Signs(s)
  {
    var t := s[KeyLen(s)..];
    assert s == s[..KeyLen(s)] + t;
    SignsOfBoth(s[..KeyLen(s)], t);
    SignsOfTrimmed(t);
    var u := if t != [] && t[0] == '=' then t else Trimmed(t);
    if u != [] {
      SignsOfTrimmed(u[1..]);
    }
  }

  /** The equals signs that reading all of `es` takes. */
  ghost function Cost(es: seq<Entry>): nat { if es == [] then 0 else 1 + Signs(es[0].value) + Cost(es[1..]) }

  lemma {:induction false} CostOfJoin(es: seq<Entry>)
    requires forall e :: e in es ==> IsKey(e.key)
    ensures Signs(Join(es)) == Cost(es)
  {
    if es != [] {
      SignsOfPrint(es[0]);
      CostOfJoin(es[1..]);
      if |es| > 1 {
        SignsOfBoth(Print(es[0]) + " ", Join(es[1..]));
        SignsOfBoth(Print(es[0]), " ");
      }
    }
  }

  ghost predicate Has(p: map<string, string>, e: Entry) { e.key in p && p[e.key] == e.value }

  ghost predicate HasAll(p: map<string, string>, es: seq<Entry>) { forall i :: 0 <= i < |es| ==> Has(p, es[i]) }

  ghost predicate HasNone(p: map<string, string>, es: seq<Entry>) { forall i :: 0 <= i < |es| ==> !Has(p, es[i]) }

  ghost function Without(es: seq<Entry>, i: nat): seq<Entry>
    requires i < |es|
  {
    es[..i] + es[i + 1..]
  }

  lemma WithoutStep(es: seq<Entry>, i: nat)
    requires 0 < i < |es|
    ensures Without(es, i) != [] && Without(es, i)[0] == es[0] && Without(es, i)[1..] == Without(es[1..], i - 1)
  {
  }

  lemma {:induction false} CostWithout(es: seq<Entry>, i: nat)
    requires i < |es|
    ensures Cost(es) == 1 + Signs(es[i].value) + Cost(Without(es, i))
  {
    if i == 0 {
      assert Without(es, 0) == es[1..];
    } else {
      WithoutStep(es, i);
      CostWithout(es[1..], i - 1);
    }
  }

  lemma KeysWithout(es: seq<Entry>, i: nat)
    requires i < |es| && KeysDiffer(es)
    ensures KeysDiffer(Without(es, i))
    ensures forall e :: e in Without(es, i) <==> e in es && e != es[i]
  {
    var left := Without(es, i);
    forall e
      ensures e in left <==> e in es && e != es[i]
    {
      if e in left {
        var j :| 0 <= j < |left| && left[j] == e;
        assert e == es[if j < i then j else j + 1];
      }
      if e in es && e != es[i] {
        var j :| 0 <= j < |es| && es[j] == e;
        assert left[if j < i then j else j - 1] == e;
      }
    }
  }

  /** One more parameter settles at most one entry. */
  lemma StillToRead(p: map<string, string>, es: seq<Entry>, key: string, v: string) returns (left: seq<Entry>)
    requires KeysDiffer(es) && HasNone(p, es)
    ensures KeysDiffer(left) && HasNone(p[key := v], left) && (forall e :: e in left ==> e in es)
    ensures Cost(es) <= 1 + Signs(v) + Cost(left)
  {
    left := es;
    if i :| 0 <= i < |es| && es[i] == Entry(key, v) {
      left := Without(es, i);
      CostWithout(es, i);
      KeysWithout(es, i);
    }
    forall j | 0 <= j < |left|
      ensures !Has(p[key := v], left[j])
    {
      assert left[j] in left;
      assert !Has(p, left[j]);
    }
  }

  lemma HasSome(p: map<string, string>, es: seq<Entry>, left: seq<Entry>)
    requires HasAll(p, es) && forall e :: e in left ==> e in es
    ensures HasAll(p, left)
    ensures HasNone(p, left) ==> left == []
  {
    forall i | 0 <= i < |left|
      ensures Has(p, left[i])
    {
      assert left[i] in left;
    }
    assert left == [] || Has(p, left[0]);
  }

  /** A text that yields entries not there before has an equals sign for each, and those of their values. */
  lemma {:induction false} ReadingCosts(s: string, p: map<string, string>, es: seq<Entry>)
    requires KeysDiffer(es) && HasNone(p, es) && Parse(s, p).Ok? && HasAll(Parse(s, p).params, es)
    ensures Cost(es) <= Signs(s)
    decreases |s|
  {
    TrimShortens(s);
    SignsOfTrimmed(s);
    var entry := Trimmed(s);
    if entry == [] {
      HasSome(p, es, es);
    } else {
      AfterEqualsShortens(entry);
      AfterEqualsSigns(entry);
      var key := entry[..KeyLen(entry)];
      var text := AfterEquals(entry).value;
      if text == [] {
        var left := StillToRead(p, es, key, "");
        HasSome(p[key := ""], es, left);
      } else {
        ValueSigns(text);
        UnquotedShortens(text);
        QuotedShortens(text[1..]);
        var v := ValueAt(text).value;
        var left := StillToRead(p, es, key, v.value);
        HasSome(Parse(s, p).params, es, left);
        ReadingCosts(v.rest, p[key := v.value], left);
      }
    }
  }

  /** White space that is not escaped. */
  predicate Bare(c: char) { IsSpace(c) && c != ' ' }

  ghost predicate StartsBare(v: string) { v != [] && Bare(v[0]) }

  /** A value with bare white space is cut off there. */
  lemma {:induction false} UnquotedStops(v: string, rest: string)
    requires !Clean(v)
    ensures var r := Unquoted(Escape(v) + rest); r.Some? ==> |r.value.value| < |v|
  {
    EscapeFirst(v, rest);
    if !Bare(v[0]) {
      UnquotedStops(v[1..], rest);
      UnquotedChar(v[0], Escape(v[1..]) + rest);
    }
  }

  /** Bare white space at the front of a value is skipped. */
  lemma {:induction false} TrimPrinted(v: string, rest: string) returns (w: string)
    ensures w == [] ==> Trimmed(Escape(v) + rest) == Trimmed(rest)
    ensures w != [] ==> Trimmed(Escape(v) + rest) == Escape(w) + rest && !Bare(w[0])
    ensures v != [] && !Bare(v[0]) ==> w == v
  {
    w := v;
    if v == [] {
      assert Escape(v) + rest == rest;
    } else {
      EscapeFirst(v, rest);
      if Bare(v[0]) {
        assert (Escape(v) + rest)[1..] == Escape(v[1..]) + rest;
        w := TrimPrinted(v[1..], rest);
      }
    }
  }

  /** Whether quoted or not, a value read from the start of an entry does not start with white space. */
  lemma KeyStartsValue(key: string, tail: string)
    requires IsKey(key)
    ensures var r := Unquoted(key + "=" + tail); r.Some? && r.value.value != [] ==> !IsSpace(r.value.value[0])
    ensures var r := Quoted(key + "=" + tail); r.Some? && r.value.value != [] ==> !IsSpace(r.value.value[0])
  {
    var s := key + "=" + tail;
    assert forall i :: 0 <= i <= |key| ==> !IsSpace(s[i]);
    assert s[|key|] == '=';
  }

  lemma EntryStartsValue(e: Entry, tail: string)
    requires IsKey(e.key)
    ensures var s := Print(e) + tail; s != [] && !IsSpace(s[0]) && var r := ValueAt(s); r.Some? ==> !StartsBare(r.value.value)
  {
    var s := Print(e) + tail;
    var more := Escape(e.value) + tail;
    assert s == e.key + "=" + more;
    KeyStartsValue(e.key, more);
    if s[0] == '\'' {
      assert s[1..] == e.key[1..] + "=" + more;
      KeyStartsValue(e.key[1..], more);
    }
  }

  /** What follows the first entry of a list. */
  ghost function Following(es: seq<Entry>): string
    requires es != []
  {
    if |es| == 1 then [] else " " + Join(es[1..])
  }

  lemma JoinSplits(es: seq<Entry>)
    requires es != []
    ensures Join(es) == Print(es[0]) + Following(es)
  {
  }

  lemma FollowingStartsValue(es: seq<Entry>)
    requires es != [] && forall e :: e in es ==> IsKey(e.key)
    ensures var t := Trimmed(Following(es)); t != [] ==> var r := ValueAt(t); r.Some? ==> !StartsBare(r.value.value)
  {
    if |es| > 1 {
      JoinSplits(es[1..]);
      EntryStartsValue(es[1], Following(es[1..]));
      assert Following(es)[1..] == Join(es[1..]);
    }
  }

  /** A value with bare white space does not come back. */
  lemma DirtyIsCut(es: seq<Entry>)
    requires es != [] && !Clean(es[0].value) && forall e :: e in es ==> IsKey(e.key)
    ensures var t := Trimmed(Escape(es[0].value) + Following(es)); t != [] ==> var r := ValueAt(t); r.Some? ==> r.value.value != es[0].value
  {
    var v, rest := es[0].value, Following(es);
    var w := TrimPrinted(v, rest);
    if w == [] {
      FollowingStartsValue(es);
    } else {
      EscapeStarts(w);
      EscapeFirst(w, rest);
      UnquotedChar(w[0], Escape(w[1..]) + rest);
      UnquotedStops(v, rest);
    }
  }

  /** Nor does it come back later: what is left of the text has too few equals signs. */
  lemma DirtyFirst(es: seq<Entry>, p: map<string, string>)
    requires es != [] && KeysDiffer(es) && HasNone(p, es) && !Clean(es[0].value) && forall e :: e in es ==> IsKey(e.key)
    ensures Parse(Join(es), p).Ok? ==> !HasAll(Parse(Join(es), p).params, es)
  {
    var e, text := es[0], Escape(es[0].value) + Following(es);
    JoinSplits(es);
    assert Join(es) == e.key + "=" + text;
    PrintedEntry(e.key, text, p);
    var t := Trimmed(text);
    if t != [] && ValueAt(t).Some? {
      var r := ValueAt(t).value;
      DirtyIsCut(es);
      if Parse(r.rest, p[e.key := r.value]).Ok? && HasAll(Parse(r.rest, p[e.key := r.value]).params, es) {
        ReadingCosts(r.rest, p[e.key := r.value], es);
        ValueSigns(t);
        SignsOfTrimmed(text);
        CostOfJoin(es);
        SignsOfBoth(e.key + "=", text);
        SignsOfBoth(e.key, "=");
      }
    } else if t == [] {
      assert !Has(p[e.key := ""], e);
    }
  }

  lemma {:induction false} DirtyList(es: seq<Entry>, p: map<string, string>)
    requires KeysDiffer(es) && HasNone(p, es) && forall e :: e in es ==> IsKey(e.key) && e.value != ""
    requires exists e :: e in es && !Clean(e.value)
    ensures Parse(Join(es), p).Ok? ==> !HasAll(Parse(Join(es), p).params, es)
    decreases |es|
  {
    if !Clean(es[0].value) {
      DirtyFirst(es, p);
    } else {
      JoinSplits(es);
      ParsePrinted(es[0], Following(es), p);
      assert Tail(Following(es)) == Join(es[1..]);
      DirtyList(es[1..], p[es[0].key := es[0].value]);
    }
  }

  lemma {:induction false} KeyLenIsKey(s: string)
    ensures IsKey(s[..KeyLen(s)])
  {
    if s != [] && !IsSpace(s[0]) && s[0] != '=' {
      KeyLenIsKey(s[1..]);
      assert s[..KeyLen(s)] == [s[0]] + s[1..][..KeyLen(s[1..])];
    }
  }

  /** The parser reads nothing but proper keys. */
  lemma {:induction false} ParsedKeys(s: string, p: map<string, string>, k: string)
    requires Parse(s, p).Ok? && k in Parse(s, p).params && k !in p
    ensures IsKey(k)
    decreases |s|
  {
    TrimShortens(s);
    var entry := Trimmed(s);
    AfterEqualsShortens(entry);
    KeyLenIsKey(entry);
    var key := entry[..KeyLen(entry)];
    var text := AfterEquals(entry).value;
    if text != [] && k != key {
      UnquotedShortens(text);
      QuotedShortens(text[1..]);
      var v := ValueAt(text).value;
      ParsedKeys(v.rest, p[key := v.value], k);
    }
  }

  /**
   * The escaping covers the ASCII space only and keys are printed as they are, so
   * the printed string of any parameters is read back as those that have a value
   * exactly when their keys are proper and their values have no other white
   * space.
   */
  lemma RoundTripIff(cp: map<string, string>, es: seq<Entry>)
    requires Lists(es, cp)
    ensures Parse(Join(es), map[]) == Ok(NonEmpty(cp)) <==> forall k :: k in cp && cp[k] != "" ==> IsKey(k) && Clean(cp[k])
  {
    if Parse(Join(es), map[]) == Ok(NonEmpty(cp)) {
      forall k | k in cp && cp[k] != ""
        ensures IsKey(k)
      {
        ParsedKeys(Join(es), map[], k);
      }
      forall k | k in cp && cp[k] != ""
        ensures Clean(cp[k])
      {
        assert Entry(k, cp[k]) in es;
        if !Clean(cp[k]) {
          DirtyList(es, map[]);
        }
      }
    } else if forall k :: k in cp && cp[k] != "" ==> IsKey(k) && Clean(cp[k]) {
      RoundTrip(cp, es);
    }
  }

  // ------------------------------------------------------------- reproducible

  ghost function Texts(es: seq<Entry>): seq<string> { if es == [] then [] else [Print(es[0])] + Texts(es[1..]) }

  ghost function JoinTexts(ts: seq<string>): string {
    if ts == [] then [] else if |ts| == 1 then ts[0] else ts[0] + " " + JoinTexts(ts[1..])
  }

  lemma {:induction false} TextsAre(es: seq<Entry>)
    ensures |Texts(es)| == |es| && Join(es) == JoinTexts(Texts(es))
    ensures forall i :: 0 <= i < |es| ==> Texts(es)[i] == Print(es[i])
  {
    if es != [] {
      TextsAre(es[1..]);
    }
  }

  lemma {:induction false} TextsWithout(es: seq<Entry>, i: nat)
    requires i < |es|
    ensures multiset(Texts(es)) == multiset(Texts(Without(es, i))) + multiset{Print(es[i])}
  {
    if i == 0 {
      assert Without(es, 0) == es[1..];
    } else {
      WithoutStep(es, i);
      TextsWithout(es[1..], i - 1);
    }
  }

  lemma EmptyIfNone(es: seq<Entry>)
    ensures (forall e :: e !in es) ==> es == []
  {
    if es != [] {
      assert es[0] in es;
    }
  }

  /** Two listings of the same entries have the same texts. */
  lemma {:induction false} SameTexts(es: seq<Entry>, fs: seq<Entry>)
    requires KeysDiffer(es) && KeysDiffer(fs) && forall e :: e in es <==> e in fs
    ensures multiset(Texts(es)) == multiset(Texts(fs))
    decreases |es|
  {
    if es == [] {
      EmptyIfNone(fs);
    } else {
      assert es[0] in fs;
      var j :| 0 <= j < |fs| && fs[j] == es[0];
      KeysWithout(es, 0);
      KeysWithout(fs, j);
      TextsWithout(es, 0);
      TextsWithout(fs, j);
      SameTexts(Without(es, 0), Without(fs, j));
    }
  }

  ghost predicate InOrder(ts: seq<string>) { forall i, j :: 0 <= i < j < |ts| ==> !StringLess(ts[j], ts[i]) }

  lemma SameFirst(a: seq<string>, b: seq<string>)
    requires InOrder(a) && InOrder(b) && a != [] && b != [] && a[0] in b && b[0] in a
    ensures a[0] == b[0]
  {
    var i :| 0 <= i < |b| && b[i] == a[0];
    var j :| 0 <= j < |a| && a[j] == b[0];
    StringOrderTotal(a[0], b[0]);
  }

  lemma SameRest(a: seq<string>, b: seq<string>)
    requires a != [] && b != [] && a[0] == b[0] && multiset(a) == multiset(b)
    ensures multiset(a[1..]) == multiset(b[1..])
  {
    assert a == [a[0]] + a[1..] && b == [b[0]] + b[1..];
    assert multiset(a[1..]) == multiset(a) - multiset{a[0]};
  }

  /** There is one way to sort. */
  lemma {:induction false} OneOrder(a: seq<string>, b: seq<string>)
    requires InOrder(a) && InOrder(b) && multiset(a) == multiset(b)
    ensures a == b
    decreases |a|
  {
    assert |a| == |multiset(a)| == |multiset(b)| == |b|;
    if a != [] {
      assert a[0] in multiset(b) && b[0] in multiset(a);
      SameFirst(a, b);
      SameRest(a, b);
      OneOrder(a[1..], b[1..]);
    }
  }

  /** The printed string is reproducible: it does not depend on the order in which the map was walked. */
  lemma Reproducible(cp: map<string, string>, es: seq<Entry>, fs: seq<Entry>)
    requires Lists(es, cp) && Sorted(es) && Lists(fs, cp) && Sorted(fs)
    ensures Join(es) == Join(fs)
  {
    forall e
      ensures e in es <==> e in fs
    {
      assert e in es ==> Entry(e.key, cp[e.key]) in fs;
      assert e in fs ==> Entry(e.key, cp[e.key]) in es;
    }
    SameTexts(es, fs);
    TextsAre(es);
    TextsAre(fs);
    OneOrder(Texts(es), Texts(fs));
  }
}
