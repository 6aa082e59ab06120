/** The string encoding of label maps that keys the metric series. */
module Labels {

  type LabelMap = map<string, string>

  // ---------- the order of sort.Strings ----------

  predicate Less(a: string, b: string) {
    b != [] && (a == [] || a[0] < b[0] || (a[0] == b[0] && Less(a[1..], b[1..])))
  }

  lemma {:induction false} LessIsStrict(a: string, b: string)
    ensures Less(a, b) ==> !Less(b, a) && a != b
    ensures Less(a, b) || Less(b, a) || a == b
  {
    if a != [] && b != [] && a[0] == b[0] {
      LessIsStrict(a[1..], b[1..]);
      assert a == [a[0]] + a[1..] && b == [b[0]] + b[1..];
    }
  }

  lemma {:induction false} LessIsTransitive(a: string, b: string, c: string)
    requires Less(a, b) && Less(b, c)
    ensures Less(a, c)
  {
    if a != [] && a[0] == b[0] && b[0] == c[0] {
      LessIsTransitive(a[1..], b[1..], c[1..]);
    }
  }

  ghost predicate IsLeast(m: string, names: set<string>) {
    m in names && forall n :: n in names && n != m ==> Less(m, n)
  }

  lemma {:induction false} LeastExists(names: set<string>) returns (m: string)
    requires names != {}
    ensures IsLeast(m, names)
    decreases |names|
  {
    var n :| n in names;
    var rest := names - {n};
    if rest == {} {
      assert names == {n};
      m := n;
    } else {
      m := LeastExists(rest);
      LessIsStrict(n, m);
      if Less(n, m) {
        forall k | k in names && k != n ensures Less(n, k) {
          if k != m { LessIsTransitive(n, m, k); }
        }
        m := n;
      }
    }
  }

  ghost function Least(names: set<string>): (m: string)
    requires names != {}
    ensures IsLeast(m, names)
  {
    assert exists m :: IsLeast(m, names) by { var m := LeastExists(names); }
    var m :| IsLeast(m, names);
    m
  }

  /** The names in increasing order. */
  ghost function Sorted(names: set<string>): seq<string>
    decreases |names|
  {
    if names == {} then [] else [Least(names)] + Sorted(names - {Least(names)})
  }

  lemma {:induction false} SortedHolds(names: set<string>)
    ensures forall n :: n in Sorted(names) <==> n in names
    decreases |names|
  {
    if names != {} {
      var m := Least(names);
      SortedHolds(names - {m});
      assert names == (names - {m}) + {m};
    }
  }

  ghost predicate Ascending(s: seq<string>) {
    forall i, j :: 0 <= i < j < |s| ==> Less(s[i], s[j])
  }

  /** An ascending list of the names is the sorted one. */
  lemma {:induction false} SortedIsUnique(s: seq<string>, names: set<string>)
    requires Ascending(s) && (forall n :: n in s <==> n in names)
    ensures s == Sorted(names)
    decreases |s|
  {
    if s == [] {
      assert names == {};
    } else {
      assert s[0] in names;
      var m := Least(names);
      LessIsStrict(s[0], m);
      assert m in s;
      assert s[0] == m;
      forall n ensures n in s[1..] <==> n in names - {m} {
        if n in s[1..] {
          var i :| 0 <= i < |s[1..]| && s[1..][i] == n;
          assert Less(s[0], s[i + 1]);
          LessIsStrict(s[0], n);
        }
        if n in names - {m} {
          assert n in s;
        }
      }
      SortedIsUnique(s[1..], names - {m});
    }
  }

  // ---------- the encoding ----------

  predicate NameStart(c: char) {
    c == '_' || 'a' <= c <= 'z' || 'A' <= c <= 'Z'
  }

  predicate ValidName(name: string) {
    && name != "" && !("__" <= name)
    && forall i :: 0 <= i < |name| ==> NameStart(name[i]) || ('0' <= name[i] <= '9' && i > 0)
  }

  /** Letters, digits and underscores, no digit first and not two underscores. */
  lemma NameShape(name: string)
    ensures ValidName(name) <==>
      && |name| > 0 && !('0' <= name[0] <= '9') && !(|name| > 1 && name[0] == '_' && name[1] == '_')
      && forall c :: c in name ==> c == '_' || 'a' <= c <= 'z' || 'A' <= c <= 'Z' || '0' <= c <= '9'
  {
    assert "__" <= name <==> |name| > 1 && name[0] == '_' && name[1] == '_';
    if ValidName(name) {
      assert NameStart(name[0]);
    } else if |name| > 0 && !("__" <= name) {
      var i :| 0 <= i < |name| && !(NameStart(name[i]) || ('0' <= name[i] <= '9' && i > 0));
      assert name[i] in name;
    }
  }

  method ValidLabelName(name: string) returns (ok: bool)
    ensures ok <==> ValidName(name)
  {
    if name == "" || "__" <= name {
      return false;
    }
    for i := 0 to |name|
      invariant forall k :: 0 <= k < i ==> NameStart(name[k]) || ('0' <= name[k] <= '9' && k > 0)
    {
      var c := name[i];
      if !(NameStart(c) || ('0' <= c <= '9' && i > 0)) {
        return false;
      }
    }
    return true;
  }

  function EscapeChar(c: char): string {
    if c == '\\' then "\\\\" else if c == '"' then "\\\"" else if c == '\n' then "\\n" else [c]
  }

  function Escape(value: string): string {
    if value == "" then "" else EscapeChar(value[0]) + Escape(value[1..])
  }

  function FormatLabel(name: string, value: string): string {
    name + "=\"" + Escape(value) + "\""
  }

  /** `strings.Join` with a comma. */
  function Joined(parts: seq<string>): string
    decreases |parts|, 0
  {
    if parts == [] then "" else parts[0] + More(parts[1..])
  }

  function More(parts: seq<string>): string
    decreases |parts|, 1
  {
    if parts == [] then "" else "," + Joined(parts)
  }

  function Parts(labels: LabelMap, names: seq<string>): seq<string>
    requires forall n :: n in names ==> n in labels
  {
    seq(|names|, i requires 0 <= i < |names| => FormatLabel(names[i], labels[names[i]]))
  }

  function Encode(labels: LabelMap, names: seq<string>): string
    requires forall n :: n in names ==> n in labels
  {
    Joined(Parts(labels, names))
  }

  ghost function ValidNames(labels: LabelMap): set<string> {
    set n | n in labels && ValidName(n)
  }

  /** The labels that a series is told apart by. */
  ghost function Visible(labels: LabelMap): LabelMap {
    map n | n in labels && ValidName(n) :: labels[n]
  }

  ghost function Key(labels: LabelMap): string {
    SortedHolds(ValidNames(labels));
    Encode(labels, Sorted(ValidNames(labels)))
  }

  /** One insertion of the sort. */
  method Insert(names: seq<string>, n: string) returns (r: seq<string>)
    requires Ascending(names) && n !in names
    ensures Ascending(r)
    ensures forall k :: k in r <==> k in names || k == n
  {
    var i := 0;
    while i < |names| && Less(names[i], n)
      invariant 0 <= i <= |names|
      invariant forall k :: 0 <= k < i ==> Less(names[k], n)
    {
      i := i + 1;
    }
    r := names[..i] + [n] + names[i..];
    forall k | i <= k < |names| ensures Less(n, names[k]) {
      LessIsStrict(n, names[i]);
      if k > i { LessIsTransitive(n, names[i], names[k]); }
    }
  }

  /** The valid names, collected in map order and sorted. */
  method SortedNames(labels: LabelMap) returns (names: seq<string>)
    ensures names == Sorted(ValidNames(labels))
    ensures forall n :: n in names ==> n in labels && ValidName(n)
  {
    names := [];
    var left := labels.Keys;
    while left != {}
      invariant left <= labels.Keys
      invariant Ascending(names)
      invariant forall n :: n in names <==> n in ValidNames(labels) && n !in left
      decreases |left|
    {
      var n :| n in left;
      var ok := ValidLabelName(n);
      if ok {
        names := Insert(names, n);
      }
      left := left - {n};
    }
    SortedIsUnique(names, ValidNames(labels));
  }

  /** `labelKey`: the sorted names with their values, formatted and joined. */
  method LabelKey(labels: LabelMap) returns (key: string)
    ensures key == Key(labels)
  {
    var names := SortedNames(labels);
    var parts: seq<string> := [];
    for i := 0 to |names|
      invariant parts == Parts(labels, names[..i])
    {
      parts := parts + [FormatLabel(names[i], labels[names[i]])];
    }
    assert names[..|names|] == names;
    key := Joined(parts);
  }

  // ---------- unique decodability ----------

  lemma {:induction false} NameEnds(a: string, b: string, x: string, y: string)
    requires '=' !in a && '=' !in b
    requires a + "=" + x == b + "=" + y
    ensures a == b && x == y
  {
    var l, r := a + "=" + x, b + "=" + y;
    assert l[|a|] == '=' && r[|b|] == '=';
    if a == [] {
      assert b == [];
      assert x == l[1..] && y == r[1..];
    } else {
      assert l[0] == a[0] && a[0] in a;
      assert b != [];
      assert l[1..] == a[1..] + "=" + x && r[1..] == b[1..] + "=" + y;
      NameEnds(a[1..], b[1..], x, y);
      assert a == [a[0]] + a[1..] && b == [b[0]] + b[1..];
    }
  }

  /** An escaped character can be read back, and never looks like the closing quote. */
  lemma CharEnds(c: char, x: string, d: char, y: string)
    requires EscapeChar(c) + x == EscapeChar(d) + y
    ensures c == d && x == y
  {
    var l, r := EscapeChar(c) + x, EscapeChar(d) + y;
    assert l[0] == EscapeChar(c)[0] && r[0] == EscapeChar(d)[0];
    assert |EscapeChar(c)| == |EscapeChar(d)|;
    assert |EscapeChar(c)| == 2 ==> l[1] == EscapeChar(c)[1] && r[1] == EscapeChar(d)[1];
    assert x == l[|EscapeChar(c)|..] && y == r[|EscapeChar(d)|..];
  }

  lemma QuoteEnds(c: char, x: string, y: string)
    ensures EscapeChar(c) + x != "\"" + y
  {
    assert (EscapeChar(c) + x)[0] == EscapeChar(c)[0] && ("\"" + y)[0] == '"';
  }

  /** An escaped value, its closing quote and what follows. */
  function Closed(value: string, x: string): string {
    if value == "" then "\"" + x else EscapeChar(value[0]) + Closed(value[1..], x)
  }

  lemma {:induction false} ClosedIsEscaped(value: string, x: string)
    ensures Closed(value, x) == Escape(value) + "\"" + x
  {
    if value != "" {
      ClosedIsEscaped(value[1..], x);
    }
  }

  lemma {:induction false} ValueEnds(a: string, b: string, x: string, y: string)
    requires Closed(a, x) == Closed(b, y)
    ensures a == b && x == y
    decreases |a|
  {
    if a == "" && b == "" {
      assert x == Closed(a, x)[1..] && y == Closed(b, y)[1..];
    } else if a == "" {
      QuoteEnds(b[0], Closed(b[1..], y), x);
    } else {
      QuoteEnds(a[0], Closed(a[1..], x), y);
      CharEnds(a[0], Closed(a[1..], x), b[0], Closed(b[1..], y));
      ValueEnds(a[1..], b[1..], x, y);
      assert a == [a[0]] + a[1..] && b == [b[0]] + b[1..];
    }
  }

  lemma LabelSplits(n: string, v: string, x: string)
    ensures FormatLabel(n, v) + x == n + "=" + ("\"" + Closed(v, x))
  {
    ClosedIsEscaped(v, x);
    var e, q := Escape(v), "\"";
    assert n + ("=" + q) + e + q + x == n + "=" + (q + (e + q + x));
  }

  lemma LabelEnds(n: string, v: string, x: string, n': string, v': string, x': string)
    requires ValidName(n) && ValidName(n')
    requires FormatLabel(n, v) + x == FormatLabel(n', v') + x'
    ensures n == n' && v == v' && x == x'
  {
    var a, b := "\"" + Closed(v, x), "\"" + Closed(v', x');
    LabelSplits(n, v, x);
    LabelSplits(n', v', x');
    NameEnds(n, n', a, b);
    assert a[1..] == Closed(v, x) && b[1..] == Closed(v', x');
    ValueEnds(v, v', x, x');
  }

  lemma EncodeUnfolds(labels: LabelMap, names: seq<string>)
    requires forall n :: n in names ==> n in labels
    ensures names == [] ==> Encode(labels, names) == ""
    ensures names != [] ==>
      && Encode(labels, names) == FormatLabel(names[0], labels[names[0]]) + More(Parts(labels, names[1..]))
      && Encode(labels, names) != ""
  {
    if names != [] {
      assert Parts(labels, names)[1..] == Parts(labels, names[1..]);
    }
  }

  lemma MoreEnds(p: seq<string>, q: seq<string>)
    requires More(p) == More(q)
    ensures p == [] <==> q == []
    ensures Joined(p) == Joined(q)
  {
    assert p != [] ==> More(p)[1..] == Joined(p);
    assert q != [] ==> More(q)[1..] == Joined(q);
  }

  lemma {:induction false} EncodeIsInjective(a: LabelMap, ns: seq<string>, b: LabelMap, ms: seq<string>)
    requires forall n :: n in ns ==> n in a && ValidName(n)
    requires forall n :: n in ms ==> n in b && ValidName(n)
    requires Encode(a, ns) == Encode(b, ms)
    ensures ns == ms && forall n :: n in ns ==> a[n] == b[n]
    decreases |ns|
  {
    EncodeUnfolds(a, ns);
    EncodeUnfolds(b, ms);
    if ns != [] {
      var p, q := Parts(a, ns[1..]), Parts(b, ms[1..]);
      LabelEnds(ns[0], a[ns[0]], More(p), ms[0], b[ms[0]], More(q));
      MoreEnds(p, q);
      EncodeIsInjective(a, ns[1..], b, ms[1..]);
      assert ns == [ns[0]] + ns[1..] && ms == [ms[0]] + ms[1..];
    }
  }

  lemma EncodeReadsOnlyNamed(a: LabelMap, b: LabelMap, ns: seq<string>)
    requires forall n :: n in ns ==> n in a && n in b && a[n] == b[n]
    ensures Encode(a, ns) == Encode(b, ns)
  {
    assert Parts(a, ns) == Parts(b, ns);
  }

  /** Two label maps share a key exactly when they agree on their validly named labels. */
  lemma KeyIdentifiesLabels(a: LabelMap, b: LabelMap)
    ensures Key(a) == Key(b) <==> Visible(a) == Visible(b)
  {
    SortedHolds(ValidNames(a));
    SortedHolds(ValidNames(b));
    if Key(a) == Key(b) {
      EncodeIsInjective(a, Sorted(ValidNames(a)), b, Sorted(ValidNames(b)));
      assert ValidNames(a) == ValidNames(b);
      assert Visible(a).Keys == ValidNames(a) && Visible(b).Keys == ValidNames(b);
      forall n | n in Visible(a) ensures Visible(a)[n] == Visible(b)[n] {
        assert n in Sorted(ValidNames(a));
      }
    }
    if Visible(a) == Visible(b) {
      assert ValidNames(a) == Visible(a).Keys && ValidNames(b) == Visible(b).Keys;
      forall n | n in ValidNames(a) ensures a[n] == b[n] {
        assert a[n] == Visible(a)[n] && b[n] == Visible(b)[n];
      }
      EncodeReadsOnlyNamed(a, b, Sorted(ValidNames(a)));
    }
  }

  // ---------- the text of a key ----------

  /** Reading an escaped value back, as the exposition format says: backslash, quote and newline are escaped by a backslash. */
  function Unescape(text: string): string {
    if text == "" then ""
    else if text[0] == '\\' && |text| > 1 then [if text[1] == 'n' then '\n' else text[1]] + Unescape(text[2..])
    else [text[0]] + Unescape(text[1..])
  }

  lemma {:induction false} UnescapeUndoesEscape(value: string)
    ensures Unescape(Escape(value)) == value
  {
    if value != "" {
      UnescapeUndoesEscape(value[1..]);
      var head, rest := EscapeChar(value[0]), Escape(value[1..]);
      assert (head + rest)[|head|..] == rest && value == [value[0]] + value[1..];
    }
  }

  /** A quote in escaped text has a backslash before it, and there is no newline. */
  lemma {:induction false} EscapedIsOneLine(value: string, i: nat)
    requires i < |Escape(value)|
    ensures Escape(value)[i] != '\n' && (Escape(value)[i] == '"' ==> i > 0 && Escape(value)[i - 1] == '\\')
  {
    var head := EscapeChar(value[0]);
    if i >= |head| {
      EscapedIsOneLine(value[1..], i - |head|);
      assert Escape(value)[i] == Escape(value[1..])[i - |head|];
      assert i > |head| ==> Escape(value)[i - 1] == Escape(value[1..])[i - |head| - 1];
    }
  }

  /** Names are ordered by their first difference, and a name is before its extensions. */
  lemma {:induction false} LessByFirstDifference(prefix: string, a: char, x: string, b: char, y: string)
    requires a != b
    ensures Less(prefix + ([a] + x), prefix + ([b] + y)) <==> a < b
    ensures Less(prefix, prefix + ([b] + y))
  {
    if prefix != "" {
      var tail := prefix[1..];
      LessByFirstDifference(tail, a, x, b, y);
      assert (prefix + ([a] + x))[1..] == tail + ([a] + x) && (prefix + ([b] + y))[1..] == tail + ([b] + y);
    } else {
      assert prefix + ([a] + x) == [a] + x && prefix + ([b] + y) == [b] + y;
    }
  }

  /** Two labels are keyed in order, each as name, equals sign and quoted value, with a comma in between. */
  lemma KeyOfTwo(n: string, v: string, m: string, w: string)
    requires ValidName(n) && ValidName(m) && Less(n, m)
    ensures Key(map[n := v, m := w]) == n + "=\"" + Escape(v) + "\"" + ("," + (m + "=\"" + Escape(w) + "\""))
  {
    var labels := map[n := v, m := w];
    LessIsStrict(n, m);
    SortedIsUnique([n, m], ValidNames(labels));
    assert Parts(labels, [n, m]) == [FormatLabel(n, v), FormatLabel(m, w)];
    JoinOfTwo(FormatLabel(n, v), FormatLabel(m, w));
  }

  lemma JoinOfTwo(a: string, b: string)
    ensures Joined([a, b]) == a + ("," + b)
  {
    assert [a, b][1..] == [b] && [b][1..] == [];
    assert Joined([b]) == b + More([]) == b;
  }
}
