/**
 * The metric registry's text keys (internal/observability/metrics.go): a name and a label map
 * printed as one string. Two readers go the other way: one from the right, which recovers every
 * label set, and one from the left, which recovers exactly those with no value ending in a backslash.
 */
module Metrics {
  import opened Types

  type Pairs = seq<(string, string)>

  // ----- byte order on strings, and sorting

  predicate Less(a: string, b: string) {
    b != "" && (a == "" || a[0] < b[0] || (a[0] == b[0] && Less(a[1..], b[1..])))
  }

  /** The first difference decides, and a prefix comes first. */
  lemma {:induction false} LessIff(a: string, b: string)
    ensures Less(a, b) <==>
      exists k :: 0 <= k < |b| && k <= |a| && a[..k] == b[..k] && (k == |a| || a[k] < b[k])
  {
    if a == "" {
      if b != "" { assert a[..0] == b[..0]; }
    } else if b != "" && a[0] == b[0] {
      LessIff(a[1..], b[1..]);
      forall k | 0 < k < |b| && k <= |a| ensures a[..k] == b[..k] <==> a[1..][..k - 1] == b[1..][..k - 1] {
        assert a[..k] == [a[0]] + a[1..][..k - 1] && b[..k] == [b[0]] + b[1..][..k - 1];
        assert a[1..][..k - 1] == a[..k][1..] && b[1..][..k - 1] == b[..k][1..];
      }
      if Less(a, b) {
        var k :| 0 <= k < |b[1..]| && k <= |a[1..]| && a[1..][..k] == b[1..][..k] && (k == |a[1..]| || a[1..][k] < b[1..][k]);
        assert a[..k + 1] == b[..k + 1];
      }
      if k :| 0 <= k < |b| && k <= |a| && a[..k] == b[..k] && (k == |a| || a[k] < b[k]) {
        assert k > 0;
        assert a[1..][..k - 1] == b[1..][..k - 1];
      }
    } else if b != "" {
      assert forall k :: 0 < k <= |a| && k < |b| ==> a[..k][0] == a[0] && b[..k][0] == b[0];
      if Less(a, b) { assert a[..0] == b[..0]; }
    }
  }

  lemma {:induction false} LessTransitive(a: string, b: string, c: string)
    requires Less(a, b) && Less(b, c)
    ensures Less(a, c)
  {
    if a != "" && a[0] == b[0] == c[0] { LessTransitive(a[1..], b[1..], c[1..]); }
  }

  lemma {:induction false} LessTotal(a: string, b: string)
    ensures Less(a, b) || Less(b, a) || a == b
  {
    if a != "" && b != "" && a[0] == b[0] {
      LessTotal(a[1..], b[1..]);
      assert a == [a[0]] + a[1..] && b == [b[0]] + b[1..];
    }
  }

  lemma {:induction false} LessIrreflexive(a: string)
    ensures !Less(a, a)
  {
    if a != "" { LessIrreflexive(a[1..]); }
  }

  ghost predicate Ascending(ks: seq<string>) {
    forall i, j :: 0 <= i < j < |ks| ==> Less(ks[i], ks[j])
  }

  /** A set of strings has one ascending listing. */
  lemma {:induction false} AscendingUnique(a: seq<string>, b: seq<string>)
    requires Ascending(a) && Ascending(b) && forall k :: k in a <==> k in b
    ensures a == b
    decreases |a|
  {
    assert b != [] ==> b[0] in b;
    if a != [] {
      assert a[0] in b && b != [] && b[0] in a;
      SameHead(a, b);
      TailSets(a, b);
      AscendingUnique(a[1..], b[1..]);
      assert a == [a[0]] + a[1..] && b == [b[0]] + b[1..];
    }
  }

  lemma SameHead(a: seq<string>, b: seq<string>)
    requires Ascending(a) && Ascending(b) && a != [] && b != [] && a[0] in b && b[0] in a
    ensures a[0] == b[0]
  {
    if a[0] != b[0] {
      var i :| 0 <= i < |b| && b[i] == a[0];
      var j :| 0 <= j < |a| && a[j] == b[0];
      LessTransitive(a[0], b[0], a[0]);
      LessIrreflexive(a[0]);
    }
  }

  lemma TailSets(a: seq<string>, b: seq<string>)
    requires Ascending(a) && Ascending(b) && a != [] && b != [] && a[0] == b[0]
    requires forall k :: k in a <==> k in b
    ensures forall k :: k in a[1..] <==> k in b[1..]
  {
    forall k ensures k in a[1..] <==> k in b[1..] {
      LessIrreflexive(a[0]);
      assert k in a <==> k == a[0] || k in a[1..];
      assert k in b <==> k == b[0] || k in b[1..];
      assert a[0] !in a[1..] && b[0] !in b[1..];
    }
  }

  /** `sort.Strings`, on keys of a map. */
  method SortStrings(keys: seq<string>) returns (sorted: seq<string>)
    requires forall i, j :: 0 <= i < j < |keys| ==> keys[i] != keys[j]
    ensures Ascending(sorted) && forall k :: k in sorted <==> k in keys
  {
    sorted := [];
    for i := 0 to |keys|
      invariant Ascending(sorted) && (forall k :: k in sorted <==> k in keys[..i])
    {
      var at := Position(sorted, keys[i]);
      sorted := sorted[..at] + [keys[i]] + sorted[at..];
      assert keys[..i + 1] == keys[..i] + [keys[i]];
    }
    assert keys[..|keys|] == keys;
  }

  /** Where a new key goes in an ascending listing. */
  method Position(sorted: seq<string>, key: string) returns (at: nat)
    requires Ascending(sorted) && key !in sorted
    ensures at <= |sorted|
    ensures (forall i :: 0 <= i < at ==> Less(sorted[i], key)) && (forall i :: at <= i < |sorted| ==> Less(key, sorted[i]))
  {
    at := 0;
    while at < |sorted| && Less(sorted[at], key)
      invariant at <= |sorted| && forall i :: 0 <= i < at ==> Less(sorted[i], key)
    {
      at := at + 1;
    }
    if at < |sorted| {
      LessTotal(sorted[at], key);
      forall i | at < i < |sorted| ensures Less(key, sorted[i]) { LessTransitive(key, sorted[at], sorted[i]); }
    }
  }

  // ----- the printer

  /** `strings.ReplaceAll(value, `"`, `\"`)`. */
  function Escape(v: string): string {
    if v == "" then ""
    else (if v[0] == '"' then "\\\"" else [v[0]]) + Escape(v[1..])
  }

  function Part(p: (string, string)): string { p.0 + "=\"" + Escape(p.1) + "\"" }

  /** The parts joined with commas. */
  function Body(ps: Pairs): string {
    if ps == [] then ""
    else if |ps| == 1 then Part(ps[0])
    else Body(ps[..|ps| - 1]) + "," + Part(ps[|ps| - 1])
  }

  function Render(name: string, ps: Pairs): string {
    if ps == [] then name else name + "{" + Body(ps) + "}"
  }

  /** The labels in ascending order of their keys. */
  ghost predicate Listing(ps: Pairs, labels: map<string, string>) {
    && (forall i, j :: 0 <= i < j < |ps| ==> Less(ps[i].0, ps[j].0))
    && (forall i :: 0 <= i < |ps| ==> ps[i].0 in labels && labels[ps[i].0] == ps[i].1)
    && (forall k :: k in labels ==> (k, labels[k]) in ps)
  }

  lemma ListingUnique(ps: Pairs, qs: Pairs, labels: map<string, string>)
    requires Listing(ps, labels) && Listing(qs, labels)
    ensures ps == qs
  {
    var a, b := seq(|ps|, i requires 0 <= i < |ps| => ps[i].0), seq(|qs|, i requires 0 <= i < |qs| => qs[i].0);
    forall k ensures k in a <==> k in labels {
      if k in labels { var i :| 0 <= i < |ps| && ps[i] == (k, labels[k]); assert a[i] == k; }
    }
    forall k ensures k in b <==> k in labels {
      if k in labels { var i :| 0 <= i < |qs| && qs[i] == (k, labels[k]); assert b[i] == k; }
    }
    AscendingUnique(a, b);
    forall i | 0 <= i < |ps| ensures ps[i] == qs[i] { assert a[i] == b[i]; }
  }

  /** Two label sets with the same listing are the same. */
  lemma ListingDetermines(ps: Pairs, l: map<string, string>, m: map<string, string>)
    requires Listing(ps, l) && Listing(ps, m)
    ensures l == m
  {
    forall k ensures k in l <==> k in m {
      if k in l { var i :| 0 <= i < |ps| && ps[i] == (k, l[k]); }
      if k in m { var i :| 0 <= i < |ps| && ps[i] == (k, m[k]); }
    }
    forall k | k in l ensures l[k] == m[k] { var i :| 0 <= i < |ps| && ps[i] == (k, l[k]); }
  }

  function Join(parts: seq<string>): string {
    if parts == [] then ""
    else if |parts| == 1 then parts[0]
    else Join(parts[..|parts| - 1]) + "," + parts[|parts| - 1]
  }

  lemma {:induction false} JoinIsBody(parts: seq<string>, ps: Pairs)
    requires |parts| == |ps| && forall i :: 0 <= i < |ps| ==> parts[i] == Part(ps[i])
    ensures Join(parts) == Body(ps)
    decreases |ps|
  {
    hide Part;
    if |ps| > 1 { JoinIsBody(parts[..|ps| - 1], ps[..|ps| - 1]); }
  }

  /** Whatever order the map yields its keys in, the key printed is that of the ascending listing. */
  method MetricKey(name: string, labels: map<string, string>) returns (key: string, ghost ps: Pairs)
    ensures Listing(ps, labels) && key == Render(name, ps)
  {
    ps := [];
    if |labels| == 0 { return name, []; }
    var keys: seq<string> := [];
    var left := labels.Keys;
    while left != {}
      invariant left <= labels.Keys && (forall k :: k in keys <==> k in labels && k !in left)
      invariant forall i, j :: 0 <= i < j < |keys| ==> keys[i] != keys[j]
      decreases |left|
    {
      var k :| k in left;
      keys := keys + [k];
      left := left - {k};
    }
    keys := SortStrings(keys);
    var parts: seq<string> := [];
    for i := 0 to |keys|
      invariant |parts| == |ps| == i
      invariant forall j :: 0 <= j < i ==> ps[j] == (keys[j], labels[keys[j]]) && parts[j] == Part(ps[j])
    {
      var value := Escape(labels[keys[i]]);
      parts := parts + [keys[i] + "=\"" + value + "\""];
      ps := ps + [(keys[i], labels[keys[i]])];
    }
    assert Listing(ps, labels) by {
      forall k | k in labels ensures (k, labels[k]) in ps {
        var i :| 0 <= i < |keys| && keys[i] == k;
        assert ps[i] == (k, labels[k]);
      }
    }
    JoinIsBody(parts, ps);
    assert ps != [] by { var k :| k in labels; assert (k, labels[k]) in ps; }
    key := name + "{" + Join(parts) + "}";
  }

  /** `strings.IndexByte`, with None for -1. */
  function IndexOf(s: string, c: char): (r: Option<nat>)
    ensures r.Some? ==> r.value < |s| && s[r.value] == c && c !in s[..r.value]
  {
    if s == "" then None
    else if s[0] == c then Some(0)
    else match IndexOf(s[1..], c) case None => None case Some(i) => Some(i + 1)
  }

  function SampleKey(key: string, suffix: string): string {
    match IndexOf(key, '{')
    case None => key + suffix
    case Some(i) => key[..i] + suffix + key[i..]
  }

  lemma {:induction false} IndexAfter(a: string, c: char, rest: string)
    requires c !in a
    ensures IndexOf(a + [c] + rest, c) == Some(|a|) && IndexOf(a, c) == None
  {
    if a != "" {
      IndexAfter(a[1..], c, rest);
      assert (a + [c] + rest)[1..] == a[1..] + [c] + rest;
    } else {
      assert (a + [c] + rest)[0] == c;
    }
  }

  /** The suffix joins the name and leaves the labels alone. */
  lemma SampleKeySuffixes(name: string, ps: Pairs, suffix: string)
    requires '{' !in name
    ensures SampleKey(Render(name, ps), suffix) == Render(name + suffix, ps)
  {
    IndexAfter(name, '{', Body(ps) + "}");
    var key := Render(name, ps);
    if ps != [] {
      assert key == name + ['{'] + (Body(ps) + "}");
      assert key[..|name|] == name && key[|name|..] == "{" + Body(ps) + "}";
      assert SampleKey(key, suffix) == name + suffix + ("{" + Body(ps) + "}");
    }
  }

  // ----- reading from the right

  function Unescape(s: string): string {
    if s == "" then ""
    else if |s| >= 2 && s[0] == '\\' && s[1] == '"' then "\"" + Unescape(s[2..])
    else [s[0]] + Unescape(s[1..])
  }

  lemma {:induction false} UnescapeEscape(v: string)
    ensures Unescape(Escape(v)) == v && (Escape(v) != "" ==> Escape(v)[0] != '"')
  {
    if v != "" {
      UnescapeEscape(v[1..]);
      var e := Escape(v[1..]);
      if v[0] == '"' {
        assert Escape(v)[2..] == e && Escape(v)[0] == '\\' && Escape(v)[1] == '"';
        assert v == "\"" + v[1..];
      } else {
        assert Escape(v)[1..] == e && Escape(v)[0] == v[0];
        assert v == [v[0]] + v[1..];
      }
    }
  }

  /** The last quote that no backslash precedes. */
  function LastOpening(s: string): (r: Option<nat>)
    ensures r.Some? ==> r.value < |s|
  {
    if s == "" then None
    else if s[|s| - 1] == '"' && (|s| == 1 || s[|s| - 2] != '\\') then Some(|s| - 1)
    else LastOpening(s[..|s| - 1])
  }

  function LastQuote(s: string): (r: Option<nat>)
    ensures r.Some? ==> r.value < |s|
  {
    if s == "" then None
    else if s[|s| - 1] == '"' then Some(|s| - 1)
    else LastQuote(s[..|s| - 1])
  }

  /** From the closing quote back to the opening one: the text before the `=`, and the value. */
  function TakeValue(t: string): (r: Option<(string, string)>)
    ensures r.Some? ==> |r.value.0| < |t|
  {
    if t == "" || t[|t| - 1] != '"' then None
    else
      var inner := t[..|t| - 1];
      match LastOpening(inner)
      case None => None
      case Some(j) =>
        if j == 0 || inner[j - 1] != '=' then None else Some((inner[..j - 1], Unescape(inner[j + 1..])))
  }

  function ReadBody(t: string): Option<Pairs>
    decreases |t|
  {
    match TakeValue(t)
    case None => None
    case Some((before, value)) =>
      match LastQuote(before)
      case None => Some([(before, value)])
      case Some(q) =>
        if q + 1 == |before| || before[q + 1] != ',' then None
        else
          match ReadBody(before[..q + 1])
          case None => None
          case Some(ps) => Some(ps + [(before[q + 2..], value)])
  }

  function Read(text: string): Option<(string, Pairs)> {
    match IndexOf(text, '{')
    case None => Some((text, []))
    case Some(i) =>
      if text[|text| - 1] != '}' then None
      else
        match ReadBody(text[i + 1..|text| - 1])
        case None => None
        case Some(ps) => Some((text[..i], ps))
  }

  /** Every quote of an escaped value follows a backslash of that value. */
  lemma {:induction false} EscapeGuards(v: string, i: nat)
    requires i < |Escape(v)| && Escape(v)[i] == '"'
    ensures i > 0 && Escape(v)[i - 1] == '\\'
  {
    var n := if v[0] == '"' then 2 else 1;
    assert Escape(v)[n..] == Escape(v[1..]);
    if i >= n {
      assert Escape(v[1..])[i - n] == '"';
      EscapeGuards(v[1..], i - n);
      assert Escape(v)[i - 1] == Escape(v[1..])[i - 1 - n];
    }
  }

  /** An opening quote stays the last unguarded one after any part of an escaped value. */
  lemma {:induction false} OpeningFound(a: string, v: string, k: nat)
    requires k <= |Escape(v)|
    ensures LastOpening(a + "=\"" + Escape(v)[..k]) == Some(|a| + 1)
  {
    var s := a + "=\"" + Escape(v)[..k];
    if k > 0 {
      assert s[..|s| - 1] == a + "=\"" + Escape(v)[..k - 1];
      OpeningFound(a, v, k - 1);
      assert s[|s| - 1] == Escape(v)[k - 1];
      if s[|s| - 1] == '"' {
        EscapeGuards(v, k - 1);
        assert s[|s| - 2] == Escape(v)[k - 2];
      }
    }
  }

  lemma {:induction false} QuoteFound(a: string, k: string)
    requires '"' !in k
    ensures LastQuote(a + k) == LastQuote(a)
  {
    if k != "" {
      var s := a + k;
      assert s[..|s| - 1] == a + k[..|k| - 1] && s[|s| - 1] == k[|k| - 1];
      QuoteFound(a, k[..|k| - 1]);
    } else {
      assert a + k == a;
    }
  }

  ghost predicate QuoteFreeKeys(ps: Pairs) { forall i :: 0 <= i < |ps| ==> '"' !in ps[i].0 }

  lemma TakePrinted(a: string, v: string)
    ensures TakeValue(a + "=\"" + Escape(v) + "\"") == Some((a, v))
  {
    var e := Escape(v);
    Quoted(a, e);
    OpeningFound(a, v, |e|);
    UnescapeEscape(v);
    hide Escape, Unescape, LastOpening;
  }

  /** Where the pieces of a quoted value are. */
  lemma Quoted(a: string, e: string)
    ensures var t := a + "=\"" + e + "\""; var inner := t[..|t| - 1];
      && t[|t| - 1] == '"' && inner == a + "=\"" + e[..|e|]
      && inner[|a|] == '=' && inner[|a| + 2..] == e && inner[..|a|] == a
  {}

  ghost predicate Closed(body: string) { body != "" && body[|body| - 1] == '"' }

  lemma ReadFirst(p: (string, string))
    requires '"' !in p.0
    ensures ReadBody(Part(p)) == Some([p]) && Closed(Part(p))
  {
    TakePrinted(p.0, p.1);
    QuoteFound("", p.0);
    assert "" + p.0 == p.0;
  }

  lemma ReadNext(body: string, p: (string, string))
    requires Closed(body) && '"' !in p.0 && ReadBody(body).Some?
    ensures ReadBody(body + "," + Part(p)) == Some(ReadBody(body).value + [p]) && Closed(body + "," + Part(p))
  {
    hide Escape, TakeValue, LastQuote;
    var before, t := body + "," + p.0, body + "," + Part(p);
    TakePrinted(before, p.1);
    Regroup(body, p.0, Escape(p.1));
    assert TakeValue(t) == Some((before, p.1));
    QuoteBefore(body, p.0);
    assert before[..|body|] == body && before[|body| + 1..] == p.0 && before[|body|] == ',';
  }

  lemma Regroup(body: string, key: string, e: string)
    ensures body + "," + (key + "=\"" + e + "\"") == (body + "," + key) + "=\"" + e + "\""
  {}

  lemma QuoteBefore(body: string, key: string)
    requires Closed(body) && '"' !in key
    ensures LastQuote(body + "," + key) == Some(|body| - 1)
  {
    QuoteFound(body, "," + key);
    assert body + "," + key == body + ("," + key);
  }

  lemma {:induction false} ReadBodyOfBody(ps: Pairs)
    requires ps != [] && QuoteFreeKeys(ps)
    ensures ReadBody(Body(ps)) == Some(ps) && Closed(Body(ps))
    decreases |ps|
  {
    hide ReadBody, Part, Closed;
    var n := |ps| - 1;
    if n == 0 {
      ReadFirst(ps[0]);
      assert ps == [ps[0]];
    } else {
      ReadBodyOfBody(ps[..n]);
      ReadNext(Body(ps[..n]), ps[n]);
      assert ps[..n] + [ps[n]] == ps;
    }
  }

  /** The reader recovers the name and every label, whatever the values contain. */
  lemma ReadRendered(name: string, ps: Pairs)
    requires '{' !in name && QuoteFreeKeys(ps)
    ensures Read(Render(name, ps)) == Some((name, ps))
  {
    hide ReadBody;
    IndexAfter(name, '{', Body(ps) + "}");
    if ps != [] {
      var text := Render(name, ps);
      assert text == name + ['{'] + (Body(ps) + "}");
      ReadBodyOfBody(ps);
      assert text[|name| + 1..|text| - 1] == Body(ps) && text[..|name|] == name && text[|text| - 1] == '}';
    }
  }

  /** Different metrics never share a key. */
  lemma RenderInjective(name: string, l: map<string, string>, ps: Pairs, other: string, m: map<string, string>, qs: Pairs)
    requires '{' !in name && '{' !in other && Listing(ps, l) && Listing(qs, m)
    requires (forall k :: k in l ==> '"' !in k) && (forall k :: k in m ==> '"' !in k)
    ensures Render(name, ps) == Render(other, qs) <==> name == other && l == m
  {
    if Render(name, ps) == Render(other, qs) {
      ReadRendered(name, ps);
      ReadRendered(other, qs);
      ListingDetermines(ps, l, m);
    }
    if l == m { ListingUnique(ps, qs, l); }
  }

  /** The keys of a latency's samples read as its name with the suffix, and its labels. */
  lemma ReadSampleKey(name: string, ps: Pairs, suffix: string)
    requires '{' !in name && '{' !in suffix && QuoteFreeKeys(ps)
    ensures Read(SampleKey(Render(name, ps), suffix)) == Some((name + suffix, ps))
  {
    SampleKeySuffixes(name, ps, suffix);
    ReadRendered(name + suffix, ps);
  }

  // ----- reading from the left

  /** Up to the first quote that no backslash precedes: the value, and the text after that quote. */
  function ScanValue(s: string): Option<(string, string)> {
    if s == "" then None
    else if s[0] == '"' then Some(("", s[1..]))
    else
      var guarded := |s| >= 2 && s[0] == '\\' && s[1] == '"';
      match ScanValue(if guarded then s[2..] else s[1..])
      case None => None
      case Some((v, rest)) => Some(([if guarded then '"' else s[0]] + v, rest))
  }

  function ReadLeft(s: string): Option<Pairs>
    decreases |s|
  {
    match IndexOf(s, '=')
    case None => None
    case Some(i) =>
      if i + 1 == |s| || s[i + 1] != '"' then None
      else
        match ScanValue(s[i + 2..])
        case None => None
        case Some((v, rest)) =>
          if rest == "" then Some([(s[..i], v)])
          else if rest[0] != ',' || |rest| > |s| then None
          else
            match ReadLeft(rest[1..])
            case None => None
            case Some(ps) => Some([(s[..i], v)] + ps)
  }

  predicate EndsInBackslash(v: string) { v != "" && v[|v| - 1] == '\\' }

  /** A scanned value is the printed one unless that ends in a backslash, which swallows the quote. */
  lemma {:induction false} ScanPrinted(v: string, rest: string)
    ensures var out := ScanValue(Escape(v) + "\"" + rest);
      if EndsInBackslash(v) then out.Some? ==> out.value.0 != v else out == Some((v, rest))
  {
    var s := Escape(v) + "\"" + rest;
    if v == "" {
      assert s == "\"" + rest;
    } else {
      UnescapeEscape(v[1..]);
      hide Unescape;
      var e := Escape(v[1..]);
      var n := if v[0] == '"' then 2 else 1;
      assert s[n..] == e + "\"" + rest && v == [v[0]] + v[1..];
      if |v| == 1 && v[0] == '\\' {
        assert s[0] == '\\' && s[1] == '"';
        assert ScanValue(s).Some? ==> ScanValue(s).value.0[0] == '"';
      } else {
        ScanPrinted(v[1..], rest);
        assert e != "" ==> s[n] == e[0];
        assert EndsInBackslash(v) == EndsInBackslash(v[1..]);
      }
    }
  }

  /** What follows the first part of a body. */
  function Rest(ps: Pairs): string { if |ps| <= 1 then "" else "," + Body(ps[1..]) }

  lemma {:induction false} BodyFromLeft(ps: Pairs)
    requires ps != []
    ensures Body(ps) == Part(ps[0]) + Rest(ps)
    decreases |ps|
  {
    hide Part;
    var n := |ps| - 1;
    if n == 0 {
      assert Part(ps[0]) + "" == Part(ps[0]);
    } else {
      BodyFromLeft(ps[..n]);
      assert ps[..n][0] == ps[0] && ps[1..][..n - 1] == ps[..n][1..] && ps[1..][n - 1] == ps[n];
      var first, last := Part(ps[0]), Part(ps[n]);
      assert Body(ps) == first + Rest(ps[..n]) + "," + last;
      if n > 1 {
        var middle := Body(ps[..n][1..]);
        assert Body(ps[1..]) == middle + "," + last;
        hide Body;
        assert first + ("," + middle) + "," + last == first + ("," + (middle + "," + last));
      }
    }
  }

  /** Reading one part from the left. */
  lemma ReadLeftPart(p: (string, string), rest: string)
    requires '=' !in p.0
    ensures var out := ReadLeft(Part(p) + rest);
      if EndsInBackslash(p.1) then out.Some? ==> out.value[0] != p
      else if rest == "" then out == Some([p])
      else rest[0] == ',' ==>
        out == match ReadLeft(rest[1..]) case None => None case Some(ps) => Some([p] + ps)
  {
    var e := Escape(p.1);
    hide Escape, ScanValue;
    var s := Part(p) + rest;
    RegroupLeft(p.0, e, rest);
    IndexAfter(p.0, '=', "\"" + (e + "\"" + rest));
    assert s[|p.0| + 2..] == e + "\"" + rest && s[..|p.0|] == p.0 && s[|p.0| + 1] == '"';
    ScanPrinted(p.1, rest);
  }

  lemma RegroupLeft(key: string, e: string, rest: string)
    ensures (key + "=\"" + e + "\"") + rest == key + ['='] + ("\"" + (e + "\"" + rest))
  {}

  /** From the left, a body is read back if and only if none of its values ends in a backslash. */
  lemma {:induction false} ReadLeftIff(ps: Pairs)
    requires ps != [] && forall i :: 0 <= i < |ps| ==> '=' !in ps[i].0
    ensures ReadLeft(Body(ps)) == Some(ps) <==> forall i :: 0 <= i < |ps| ==> !EndsInBackslash(ps[i].1)
    decreases |ps|
  {
    hide ReadLeft, Part, Body, EndsInBackslash;
    BodyFromLeft(ps);
    ReadLeftPart(ps[0], Rest(ps));
    if |ps| == 1 {
      assert ps == [ps[0]];
    } else {
      ReadLeftIff(ps[1..]);
      assert ps == [ps[0]] + ps[1..] && Rest(ps)[1..] == Body(ps[1..]);
      assert (forall i :: 0 <= i < |ps| ==> !EndsInBackslash(ps[i].1)) <==>
             !EndsInBackslash(ps[0].1) && forall i :: 0 <= i < |ps[1..]| ==> !EndsInBackslash(ps[1..][i].1);
    }
  }

  /** The whole key, read from the left. */
  function ReadKeyLeft(text: string): Option<(string, Pairs)> {
    match IndexOf(text, '{')
    case None => Some((text, []))
    case Some(i) =>
      if text[|text| - 1] != '}' then None
      else
        match ReadLeft(text[i + 1..|text| - 1])
        case None => None
        case Some(ps) => Some((text[..i], ps))
  }

  ghost predicate EqualsFreeKeys(ps: Pairs) { forall i :: 0 <= i < |ps| ==> '=' !in ps[i].0 }

  ghost predicate NoTrailingBackslash(ps: Pairs) { forall i :: 0 <= i < |ps| ==> !EndsInBackslash(ps[i].1) }

  /** The left reader recovers name and labels if and only if no value ends in a backslash. */
  lemma ReadKeyLeftIff(name: string, ps: Pairs)
    requires '{' !in name && EqualsFreeKeys(ps)
    ensures ReadKeyLeft(Render(name, ps)) == Some((name, ps)) <==> NoTrailingBackslash(ps)
  {
    IndexAfter(name, '{', Body(ps) + "}");
    if ps != [] {
      ReadLeftIff(ps);
      hide ReadLeft, Body, IndexOf, EndsInBackslash;
      var text := Render(name, ps);
      assert text == name + ['{'] + (Body(ps) + "}");
      assert text[|name| + 1..|text| - 1] == Body(ps) && text[..|name|] == name && text[|text| - 1] == '}';
    }
  }

  /** The second way to tell metrics apart: keys without equals signs and no value ending in a backslash. */
  lemma RenderInjectiveLeft(name: string, l: map<string, string>, ps: Pairs, other: string, m: map<string, string>, qs: Pairs)
    requires '{' !in name && '{' !in other && Listing(ps, l) && Listing(qs, m)
    requires EqualsFreeKeys(ps) && NoTrailingBackslash(ps) && EqualsFreeKeys(qs) && NoTrailingBackslash(qs)
    ensures Render(name, ps) == Render(other, qs) <==> name == other && l == m
  {
    if Render(name, ps) == Render(other, qs) {
      ReadKeyLeftIff(name, ps);
      ReadKeyLeftIff(other, qs);
      ListingDetermines(ps, l, m);
    }
    if l == m { ListingUnique(ps, qs, l); }
  }

  // ----- where both conditions fail

  /** A key that contains the printed form of another label reads as two labels. */
  lemma OneLabelImitatesTwo(name: string, a: string, x: string, b: string, y: string)
    ensures Render(name, [(a + "=\"" + Escape(x) + "\"," + b, y)]) == Render(name, [(a, x), (b, y)])
  {
    var one, two := [(a + "=\"" + Escape(x) + "\"," + b, y)], [(a, x), (b, y)];
    assert two[..1] == [(a, x)];
    Imitated(a, Escape(x), b, Escape(y));
    assert Body(one) == Body(two);
  }

  lemma Imitated(a: string, x: string, b: string, y: string)
    ensures (a + "=\"" + x + "\"," + b) + "=\"" + y + "\"" == (a + "=\"" + x + "\"") + "," + (b + "=\"" + y + "\"")
  {}

  /** Two different metrics with the same key, for every name: their increments land on one counter. */
  lemma KeysCollide(name: string) returns (l: map<string, string>, ps: Pairs, m: map<string, string>, qs: Pairs)
    ensures l != m && Listing(ps, l) && Listing(qs, m) && Render(name, ps) == Render(name, qs)
  {
    var key := "a" + "=\"" + Escape("x") + "\"," + "b";
    l, ps := map[key := "y"], [(key, "y")];
    m, qs := map["a" := "x", "b" := "y"], [("a", "x"), ("b", "y")];
    OneLabelImitatesTwo(name, "a", "x", "b", "y");
    assert |l| == 1 && |m| == 2;
    assert Less("a", "b");
    assert ("a", "x") == qs[0] && ("b", "y") == qs[1] && (key, "y") == ps[0];
  }

  lemma {:induction false} EscapeAppends(u: string, v: string)
    ensures Escape(u + v) == Escape(u) + Escape(v)
  {
    if u == "" {
      assert u + v == v;
    } else {
      EscapeAppends(u[1..], v);
      assert (u + v)[1..] == u[1..] + v && (u + v)[0] == u[0];
    }
  }

  /** Two printed labels, of which the first ends in a backslash, can read as two others; no key holds an equals sign. */
  lemma KeysCollideWithoutEquals(name: string) returns (l: map<string, string>, ps: Pairs, m: map<string, string>, qs: Pairs)
    ensures l != m && Listing(ps, l) && Listing(qs, m) && Render(name, ps) == Render(name, qs)
    ensures EqualsFreeKeys(ps) && EqualsFreeKeys(qs) && !NoTrailingBackslash(qs)
  {
    var inner, key, tail := "v\",b", "b\",c", "v\\";
    l, ps := map["a" := inner, "c" := "w"], [("a", inner), ("c", "w")];
    m, qs := map["a" := tail, key := "w"], [("a", tail), (key, "w")];
    assert Less("a", "c") && Less("a", key);
    assert ("a", inner) == ps[0] && ("c", "w") == ps[1] && ("a", tail) == qs[0] && (key, "w") == qs[1];
    assert l["a"] == inner && m["a"] == tail && |inner| == 4 && |tail| == 2;
    assert EndsInBackslash(qs[0].1);
    CollidingBodies();
  }

  lemma EscapeOne(c: char)
    ensures Escape([c]) == if c == '"' then "\\\"" else [c]
  {
    assert [c][1..] == "";
  }

  lemma CollidingValues()
    ensures Escape("v\",b") == "v\\\",b" && Escape("v\\") == "v\\" && Escape("w") == "w"
  {
    EscapeOne('v');
    EscapeOne('"');
    EscapeOne(',');
    EscapeOne('b');
    EscapeOne('w');
    EscapeOne('\\');
    EscapeAppends("v", "\\");
    EscapeAppends("v", "\"");
    EscapeAppends("v\"", ",");
    EscapeAppends("v\",", "b");
    hide Escape;
    assert "v" + "\\" == "v\\" && "v" + "\"" == "v\"" && "v\"" + "," == "v\"," && "v\"," + "b" == "v\",b";
  }

  lemma CollidingBodies()
    ensures Body([("a", "v\",b"), ("c", "w")]) == Body([("a", "v\\"), ("b\",c", "w")])
  {
    CollidingValues();
    hide Escape;
    var ps, qs := [("a", "v\",b"), ("c", "w")], [("a", "v\\"), ("b\",c", "w")];
    assert ps[..1] == [ps[0]] && qs[..1] == [qs[0]];
    assert Body(ps) == Part(ps[0]) + "," + Part(ps[1]) && Body(qs) == Part(qs[0]) + "," + Part(qs[1]);
    hide Body;
    assert Part(ps[0]) == "a=\"v\\\",b\"" && Part(ps[1]) == "c=\"w\"";
    assert Part(qs[0]) == "a=\"v\\\"" && Part(qs[1]) == "b\",c=\"w\"";
    hide Part;
    assert "a=\"v\\\",b\"" + "," + "c=\"w\"" == "a=\"v\\\"" + "," + "b\",c=\"w\"";
  }

  /** The form that Prometheus reads. */
  lemma PrintsAsExposition()
    ensures Render("m", []) == "m"
    ensures Render("m", [("a", "x\"y"), ("b", "z")]) == "m{a=\"x\\\"y\",b=\"z\"}"
  {
    EscapeOne('x');
    EscapeOne('"');
    EscapeOne('y');
    EscapeOne('z');
    EscapeAppends("x", "\"");
    EscapeAppends("x\"", "y");
    hide Escape;
    assert "x" + "\"" == "x\"" && "x\"" + "y" == "x\"y";
    var ps := [("a", "x\"y"), ("b", "z")];
    assert ps[..1] == [ps[0]];
    assert Body(ps) == Part(ps[0]) + "," + Part(ps[1]);
    hide Body;
    assert Part(ps[0]) == "a=\"x\\\"y\"" && Part(ps[1]) == "b=\"z\"";
  }

  // ----- counters

  datatype Metric = Metric(name: string, labels: map<string, string>)

  ghost predicate Printable(m: Metric) { '{' !in m.name && forall k :: k in m.labels ==> '"' !in k }

  class Registry {
    var counters: map<string, nat>

    constructor ()
      ensures counters == map[]
    {
      counters := map[];
    }

    method Inc(name: string, labels: map<string, string>)
      modifies this
      ensures exists ps ::
        && Listing(ps, labels)
        && counters == old(counters)[Render(name, ps) := Incremented(Counter(old(counters), Render(name, ps)))]
    {
      var key, ps := MetricKey(name, labels);
      var value := if key in counters then counters[key] else 0;
      counters := counters[key := Incremented(value)];
    }
  }

  const TWO_53: nat := 0x20_0000_0000_0000

  /** `value++` on a float64 counter: from 2^53 on, one more rounds back to the same value. */
  function Incremented(value: nat): nat { if value < TWO_53 then value + 1 else value }

  function Counter(counters: map<string, nat>, key: string): nat {
    if key in counters then counters[key] else 0
  }

  /** How often `m` occurs. */
  function Occurrences(ms: seq<Metric>, m: Metric): nat {
    if ms == [] then 0
    else Occurrences(ms[..|ms| - 1], m) + if ms[|ms| - 1] == m then 1 else 0
  }

  function Capped(n: nat): nat { if n <= 9007199254740992 then n else 9007199254740992 }

  /** After any increments, each metric's counter holds the number of its own increments, up to 2^53. */
  method CountAll(ms: seq<Metric>) returns (r: Registry)
    requires forall i :: 0 <= i < |ms| ==> Printable(ms[i])
    ensures forall m, ps :: Printable(m) && Listing(ps, m.labels) ==>
      Counter(r.counters, Render(m.name, ps)) == Capped(Occurrences(ms, m))
  {
    hide Render, Listing;
    r := new Registry();
    for i := 0 to |ms|
      invariant fresh(r)
      invariant forall m, ps :: Printable(m) && Listing(ps, m.labels) ==>
        Counter(r.counters, Render(m.name, ps)) == Capped(Occurrences(ms[..i], m))
    {
      r.Inc(ms[i].name, ms[i].labels);
      forall m, ps, qs | Printable(m) && Listing(ps, m.labels) && Listing(qs, ms[i].labels)
        ensures Render(m.name, ps) == Render(ms[i].name, qs) <==> m == ms[i]
      {
        RenderInjective(m.name, m.labels, ps, ms[i].name, ms[i].labels, qs);
      }
      assert ms[..i + 1][..i] == ms[..i];
    }
    assert ms[..|ms|] == ms;
  }
}
