/** The log pattern language: what `LogFormatter::init` makes of a pattern, as a function on what is left of it. */
module Pattern {

  /** One entry of the list `init` builds. `Broken` is the entry pushed for a '{' that is never closed. */
  datatype Entry = Text(s: string) | Directive(name: string, arg: string, braced: bool) | Broken

  const ERROR_TEXT: string := "<<pattern_error>>"

  predicate IsLetter(c: char) { 'a' <= c <= 'z' || 'A' <= c <= 'Z' }

  /** What the scan of a directive's name runs over. */
  predicate IsNameChar(c: char) { IsLetter(c) || c == '}' }

  function NameLen(s: string): (n: nat)
    ensures n <= |s|
    ensures forall i :: 0 <= i < n ==> IsNameChar(s[i])
    ensures n < |s| ==> !IsNameChar(s[n])
  {
    if s == "" || !IsNameChar(s[0]) then 0 else 1 + NameLen(s[1..])
  }

  /** How much comes before the first '}'. */
  function ArgLen(s: string): (n: nat)
    ensures n <= |s|
    ensures forall i :: 0 <= i < n ==> s[i] != '}'
    ensures n < |s| ==> s[n] == '}'
  {
    if s == "" || s[0] == '}' then 0 else 1 + ArgLen(s[1..])
  }

  function Flush(text: string): seq<Entry> { if text == "" then [] else [Text(text)] }

  /** A directive at the head of `s`, and what follows it; `Broken` if its '{' is never closed. */
  datatype Head = Head(entry: Entry, rest: string)

  function ReadDirective(s: string): (h: Head)
    requires s != "" && s[0] == '%'
    ensures |h.rest| < |s|
  {
    var n := NameLen(s[1..]);
    var (name, rest) := (s[1..1+n], s[1+n..]);
    if rest == "" || rest[0] != '{' then Head(Directive(name, "", false), rest)
    else
      var a := ArgLen(rest[1..]);
      if 1 + a < |rest| then Head(Directive(name, rest[1..1+a], true), rest[a+2..])
      else Head(Broken, s[1..])
  }

  /** The entries for the rest `s` of a pattern, with literal text `text` pending. */
  function Parse(s: string, text: string): seq<Entry>
    decreases |s|
  {
    if s == "" then Flush(text)
    else if s[0] != '%' then Parse(s[1..], text + [s[0]])
    else if |s| > 1 && s[1] == '%' then Parse(s[1..], text + "%")
    else
      var h := ReadDirective(s);
      if h.entry.Broken? then [Broken] + Parse(h.rest, text)
      else Flush(text) + [h.entry] + Parse(h.rest, "")
  }

  function Print(e: Entry): string {
    match e
    case Text(s) => s
    case Directive(name, arg, braced) => "%" + name + (if braced then "{" + arg + "}" else "")
    case Broken => ERROR_TEXT
  }

  function Render(es: seq<Entry>): string {
    if es == [] then "" else Print(es[0]) + Render(es[1..])
  }

  function CountBroken(es: seq<Entry>): nat {
    if es == [] then 0 else (if es[0].Broken? then 1 else 0) + CountBroken(es[1..])
  }

  // ---------------------------------------------------------------- reconstruction

  lemma {:induction false} RenderAppend(xs: seq<Entry>, ys: seq<Entry>)
    ensures Render(xs + ys) == Render(xs) + Render(ys)
    ensures CountBroken(xs + ys) == CountBroken(xs) + CountBroken(ys)
  {
    if xs == [] {
      assert xs + ys == ys;
    } else {
      assert (xs + ys)[1..] == xs[1..] + ys;
      RenderAppend(xs[1..], ys);
    }
  }

  lemma RenderFlush(text: string)
    ensures Render(Flush(text)) == text && CountBroken(Flush(text)) == 0
  {
  }

  lemma RenderOne(d: Entry)
    ensures Render([d]) == Print(d) && CountBroken([d]) == if d.Broken? then 1 else 0
  {
    assert [d][1..] == [] && Print(d) + "" == Print(d);
  }

  lemma RenderDirective(text: string, d: Entry, rest: seq<Entry>)
    requires d.Directive?
    ensures Render(Flush(text) + [d] + rest) == text + Print(d) + Render(rest)
    ensures CountBroken(Flush(text) + [d] + rest) == CountBroken(rest)
  {
    RenderFlush(text);
    RenderAppend(Flush(text) + [d], rest);
    RenderAppend(Flush(text), [d]);
    RenderOne(d);
  }

  lemma PrintBraced(name: string, rest: string, a: nat)
    requires 1 + a < |rest| && rest[0] == '{' && rest[1 + a] == '}'
    ensures Print(Directive(name, rest[1..1+a], true)) + rest[a+2..] == "%" + name + rest
  {
    CutArg(rest, a);
    Assoc("%" + name, "{" + rest[1..1+a] + "}", rest[a+2..]);
  }

  lemma PrintPlain(name: string, rest: string)
    ensures Print(Directive(name, "", false)) + rest == "%" + name + rest
  {
    Assoc("%" + name, "", rest);
  }

  lemma CutName(s: string, n: nat)
    requires s != "" && s[0] == '%' && n < |s|
    ensures s == "%" + s[1..1+n] + s[1+n..]
  {
  }

  lemma CutArg(s: string, a: nat)
    requires 1 + a < |s| && s[0] == '{' && s[1 + a] == '}'
    ensures s == "{" + s[1..1+a] + "}" + s[a+2..]
  {
  }

  lemma ReadPrint(s: string)
    requires s != "" && s[0] == '%' && !ReadDirective(s).entry.Broken?
    ensures ReadDirective(s).entry.Directive?
    ensures Print(ReadDirective(s).entry) + ReadDirective(s).rest == s
  {
    var n := NameLen(s[1..]);
    var (name, rest) := (s[1..1+n], s[1+n..]);
    CutName(s, n);
    if rest != "" && rest[0] == '{' {
      ReadPrintBraced(s, name, rest);
    } else {
      PrintPlain(name, rest);
    }
  }

  /** A directive from its parts. */
  lemma ReadAt(s: string, name: string, rest: string, arg: string, tail: string)
    requires s != "" && s[0] == '%' && |name| == NameLen(s[1..]) && s[1..1+|name|] == name && s[1+|name|..] == rest
    requires rest != "" && rest[0] == '{' && |arg| == ArgLen(rest[1..]) && |arg| + 2 <= |rest|
    requires rest[1..1+|arg|] == arg && rest[|arg|+2..] == tail
    ensures ReadDirective(s) == Head(Directive(name, arg, true), tail)
  {
  }

  lemma ReadPrintBraced(s: string, name: string, rest: string)
    requires s == "%" + name + rest && |name| == NameLen(s[1..]) && s[1..1+|name|] == name && s[1+|name|..] == rest
    requires rest != "" && rest[0] == '{' && !ReadDirective(s).entry.Broken?
    ensures ReadDirective(s).entry.Directive?
    ensures Print(ReadDirective(s).entry) + ReadDirective(s).rest == s
  {
    ArgCloses(s, name, rest);
    var a := ArgLen(rest[1..]);
    ReadAt(s, name, rest, rest[1..1+a], rest[a+2..]);
    PrintBraced(name, rest, a);
  }

  lemma ArgCloses(s: string, name: string, rest: string)
    requires s != "" && s[0] == '%' && |name| == NameLen(s[1..]) && s[1+|name|..] == rest
    requires rest != "" && rest[0] == '{' && !ReadDirective(s).entry.Broken?
    ensures 1 + ArgLen(rest[1..]) < |rest|
  {
  }

  /** `es` is what text and `s` give, printed back; each `Broken` costs the '%' and adds the error text. */
  predicate Rebuilds(s: string, text: string, es: seq<Entry>) {
    && (CountBroken(es) == 0 ==> Render(es) == text + s)
    && |Render(es)| == |text| + |s| + 16 * CountBroken(es)
  }

  lemma RebuildText(s: string, text: string, es: seq<Entry>)
    requires s != "" && Rebuilds(s[1..], text + [s[0]], es)
    ensures Rebuilds(s, text, es)
  {
    assert text + [s[0]] + s[1..] == text + s;
  }

  lemma RebuildDirective(s: string, text: string, d: Entry, rest: string, es: seq<Entry>)
    requires d.Directive? && Print(d) + rest == s && Rebuilds(rest, "", es)
    ensures Rebuilds(s, text, Flush(text) + [d] + es)
  {
    RenderDirective(text, d, es);
    if CountBroken(es) == 0 {
      assert Render(es) == rest;
      Assoc(text, Print(d), rest);
    }
  }

  lemma Assoc(a: string, b: string, c: string)
    ensures a + b + c == a + (b + c)
  {
  }

  lemma RebuildBroken(s: string, text: string, es: seq<Entry>)
    requires s != "" && Rebuilds(s[1..], text, es)
    ensures Rebuilds(s, text, [Broken] + es)
  {
    RenderAppend([Broken], es);
    assert Render([Broken]) == ERROR_TEXT;
  }

  lemma {:induction false} Reconstruction(s: string, text: string)
    ensures Rebuilds(s, text, Parse(s, text))
    decreases |s|
  {
    if s == "" {
      RenderFlush(text);
    } else if s[0] != '%' {
      Reconstruction(s[1..], text + [s[0]]);
      RebuildText(s, text, Parse(s, text));
    } else if |s| > 1 && s[1] == '%' {
      Reconstruction(s[1..], text + "%");
      RebuildText(s, text, Parse(s, text));
    } else {
      var h := ReadDirective(s);
      if h.entry.Broken? {
        Reconstruction(h.rest, text);
        RebuildBroken(s, text, Parse(h.rest, text));
      } else {
        Reconstruction(h.rest, "");
        ReadPrint(s);
        RebuildDirective(s, text, h.entry, h.rest, Parse(h.rest, ""));
      }
    }
  }

  /** Pattern reconstruction, exactly: the printed entries are the pattern if and only if none is `Broken`. */
  lemma ReconstructedExactly(p: string)
    ensures Render(Parse(p, "")) == p <==> CountBroken(Parse(p, "")) == 0
  {
    Reconstruction(p, "");
    assert "" + p == p;
  }

  // ---------------------------------------------------------------- one directive

  /** What a name may hold, spelled out: a letter, or a '}' like any letter. */
  predicate InName(c: char) { 'a' <= c <= 'z' || 'A' <= c <= 'Z' || c == '}' }

  /** How a '%' is read. The name is as long as it can be; a '{' after it opens an argument that goes up to the next
      '}'; and if there is none, the '%' alone is the error and what follows it is read again. */
  lemma DirectiveExactly(s: string) returns (n: nat)
    requires s != "" && s[0] == '%'
    ensures 1 <= n <= |s| && (forall i :: 1 <= i < n ==> InName(s[i])) && (n < |s| ==> !InName(s[n]))
    ensures var (h, opens) := (ReadDirective(s), n < |s| && s[n] == '{');
            if !opens then h == Head(Directive(s[1..n], "", false), s[n..])
            else if '}' !in s[n+1..] then h == Head(Broken, s[1..])
            else exists k :: n < k < |s| && s[k] == '}' && '}' !in s[n+1..k]
                             && h == Head(Directive(s[1..n], s[n+1..k], true), s[k+1..])
  {
    n := 1 + NameLen(s[1..]);
    NameSpan(s, n);
    if n < |s| && s[n] == '{' { ArgSpan(s, n); }
  }

  lemma NameSpan(s: string, n: nat)
    requires s != "" && n == 1 + NameLen(s[1..])
    ensures (forall i :: 1 <= i < n ==> InName(s[i])) && (n < |s| ==> !InName(s[n]))
  {
    assert forall i :: 1 <= i < n ==> s[i] == s[1..][i-1];
    assert n < |s| ==> s[n] == s[1..][n-1];
  }

  lemma ArgSpan(s: string, n: nat)
    requires s != "" && s[0] == '%' && n == 1 + NameLen(s[1..]) < |s| && s[n] == '{'
    ensures if '}' !in s[n+1..] then ReadDirective(s) == Head(Broken, s[1..])
            else exists k :: n < k < |s| && s[k] == '}' && '}' !in s[n+1..k]
                             && ReadDirective(s) == Head(Directive(s[1..n], s[n+1..k], true), s[k+1..])
  {
    var (rest, a) := (s[n..], ArgLen(s[n+1..]));
    assert rest[1..] == s[n+1..];
    if 1 + a < |rest| {
      var k := n + 1 + a;
      ArgCut(s, n, a);
      ReadAt(s, s[1..n], rest, s[n+1..k], s[k+1..]);
    } else {
      OpenRest(s, n);
    }
  }

  lemma ArgCut(s: string, n: nat, a: nat)
    requires n < |s| && a == ArgLen(s[n+1..]) && n + 1 + a < |s|
    ensures s[n+1+a] == '}' && '}' !in s[n+1..n+1+a] && '}' in s[n+1..]
    ensures s[n..][1..1+a] == s[n+1..n+1+a] && s[n..][a+2..] == s[n+2+a..]
  {
    assert s[n+1..][a] == s[n+1+a] && s[n+1..n+1+a] == s[n+1..][..a];
  }

  lemma OpenRest(s: string, n: nat)
    requires s != "" && s[0] == '%' && n == 1 + NameLen(s[1..]) < |s| && s[n] == '{'
    requires ArgLen(s[n+1..]) == |s| - n - 1
    ensures '}' !in s[n+1..] && ReadDirective(s) == Head(Broken, s[1..])
  {
    assert s[n..][1..] == s[n+1..];
  }

  // ---------------------------------------------------------------- unterminated braces

  /** At `i` stands a '%', at `n` a '{', between them only what a name may hold, and no '}' follows. */
  predicate LooseAt(s: string, i: nat, n: nat) {
    && i < n < |s| && s[i] == '%' && s[n] == '{'
    && (forall j :: i < j < n ==> IsNameChar(s[j]))
    && '}' !in s[n+1..]
  }

  /** The pattern ends inside a '{': there is such a place, and what comes before it does not itself end inside
      a '{'. */
  ghost predicate Unclosed(p: string)
    decreases |p|
  {
    exists i: nat, n: nat :: LooseAt(p, i, n) && !Unclosed(p[..i])
  }

  lemma LooseShift(s: string, k: nat, i: nat, n: nat)
    requires k <= |s| && LooseAt(s[k..], i, n)
    ensures LooseAt(s, k + i, k + n)
  {
    assert s[k..][n+1..] == s[k+n+1..];
    forall j | k + i < j < k + n ensures IsNameChar(s[j]) { assert s[j] == s[k..][j-k]; }
  }

  lemma NameLenIs(s: string, n: nat)
    requires n <= |s| && (n < |s| ==> !IsNameChar(s[n])) && forall j :: 0 <= j < n ==> IsNameChar(s[j])
    ensures NameLen(s) == n
  {
    var m := NameLen(s);
  }

  lemma ArgLenIs(s: string, a: nat)
    requires a <= |s| && (a < |s| ==> s[a] == '}') && forall j :: 0 <= j < a ==> s[j] != '}'
    ensures ArgLen(s) == a
  {
    var m := ArgLen(s);
  }

  /** The directive at the head of `s` has its name up to `m` and is read in full up to `k`. */
  predicate CutAt(s: string, m: nat, k: nat) {
    && 1 <= m <= k <= |s| && s[0] == '%'
    && (forall j :: 1 <= j < m ==> IsNameChar(s[j])) && (m < |s| ==> !IsNameChar(s[m]))
    && (k == m ==> m == |s| || s[m] != '{')
    && (k > m ==> m < k - 1 && s[m] == '{' && s[k-1] == '}' && forall j :: m < j < k - 1 ==> s[j] != '}')
  }

  lemma NameCutIs(s: string, m: nat)
    requires 1 <= m <= |s| && (forall j :: 1 <= j < m ==> IsNameChar(s[j])) && (m < |s| ==> !IsNameChar(s[m]))
    ensures NameLen(s[1..]) == m - 1
  {
    forall j | 0 <= j < m - 1 ensures IsNameChar(s[1..][j]) { assert s[1..][j] == s[j+1]; }
    assert m < |s| ==> s[1..][m-1] == s[m];
    NameLenIs(s[1..], m - 1);
  }

  lemma CutRead(s: string, m: nat, k: nat)
    requires CutAt(s, m, k)
    ensures !ReadDirective(s).entry.Broken? && ReadDirective(s).rest == s[k..]
  {
    NameCutIs(s, m);
    if k > m { CutReadBraced(s, m, k); }
  }

  lemma CutReadBraced(s: string, m: nat, k: nat)
    requires CutAt(s, m, k) && k > m && NameLen(s[1..]) == m - 1
    ensures !ReadDirective(s).entry.Broken? && ReadDirective(s).rest == s[k..]
  {
    var rest := s[m..];
    forall j | 0 <= j < k - m - 2 ensures rest[1..][j] != '}' { assert rest[1..][j] == s[m+1+j]; }
    assert rest[1..][k-m-2] == s[k-1];
    ArgLenIs(rest[1..], k - m - 2);
    assert rest[k-m..] == s[k..];
  }

  lemma ReadCut(s: string) returns (m: nat, k: nat)
    requires s != "" && s[0] == '%' && !ReadDirective(s).entry.Broken?
    ensures CutAt(s, m, k) && ReadDirective(s).rest == s[k..]
  {
    var len := NameLen(s[1..]);
    m := 1 + len;
    assert forall j :: 1 <= j < m ==> s[j] == s[1..][j-1];
    assert m < |s| ==> s[m] == s[1..][len];
    var rest := s[m..];
    if rest == "" || rest[0] != '{' {
      k := m;
    } else {
      k := ReadCutBraced(s, m);
    }
  }

  lemma ReadCutBraced(s: string, m: nat) returns (k: nat)
    requires s != "" && s[0] == '%' && !ReadDirective(s).entry.Broken? && m == 1 + NameLen(s[1..]) < |s| && s[m] == '{'
    ensures m < k - 1 < |s| && ReadDirective(s).rest == s[k..] && s[k-1] == '}'
    ensures forall j :: m < j < k - 1 ==> s[j] != '}'
  {
    var rest := s[m..];
    var a := ArgLen(rest[1..]);
    k := m + a + 2;
    assert rest[1..][a] == s[k-1];
    forall j | m < j < k - 1 ensures s[j] != '}' { assert rest[1..][j-m-1] == s[j]; }
    assert rest[a+2..] == s[k..];
  }

  /** The `Broken` entries of a parse that starts with a directive, */
  lemma CountDirective(s: string, text: string)
    requires s != "" && s[0] == '%' && (|s| > 1 ==> s[1] != '%')
    ensures var h := ReadDirective(s);
            if h.entry.Broken? then CountBroken(Parse(s, text)) > 0
            else CountBroken(Parse(s, text)) == CountBroken(Parse(h.rest, ""))
  {
    ParseHead(s, text);
    var h := ReadDirective(s);
    if !h.entry.Broken? {
      ReadPrint(s);
      RenderDirective(text, h.entry, Parse(h.rest, ""));
    }
  }

  /** in particular with one that is cut at `k`, */
  lemma CountCut(s: string, text: string, m: nat, k: nat)
    requires CutAt(s, m, k) && (|s| > 1 ==> s[1] != '%')
    ensures CountBroken(Parse(s, text)) == CountBroken(Parse(s[k..], ""))
  {
    CutRead(s, m, k);
    CountDirective(s, text);
  }

  /** or with text. */
  predicate StartsText(s: string) { s != "" && (s[0] != '%' || (|s| > 1 && s[1] == '%')) }

  lemma ParseChar(s: string, text: string)
    requires StartsText(s)
    ensures Parse(s, text) == Parse(s[1..], text + [s[0]])
  {
  }

  lemma LonePercent(s: string, text: string)
    requires s == "%"
    ensures CountBroken(Parse(s, text)) == 0
  {
    CountCut(s, text, 1, 1);
    assert s[1..] == "";
  }

  /** A place such as `LooseAt` describes, at the head: the directive is broken. */
  lemma LooseHead(s: string, n: nat)
    requires LooseAt(s, 0, n)
    ensures ReadDirective(s).entry.Broken?
  {
    NameCutIs(s, n);
    var rest := s[n..];
    assert rest[1..] == s[n+1..];
    ArgLenIs(rest[1..], |rest| - 1);
  }

  lemma BrokenHead(s: string) returns (n: nat)
    requires s != "" && s[0] == '%' && ReadDirective(s).entry.Broken?
    ensures LooseAt(s, 0, n)
  {
    n := 1 + NameLen(s[1..]);
    var rest := s[n..];
    assert rest[1..] == s[n+1..];
    forall j | 0 < j < n ensures IsNameChar(s[j]) { assert s[j] == s[1..][j-1]; }
    assert '}' !in s[n+1..] by { assert ArgLen(rest[1..]) == |rest[1..]|; }
  }

  /** If what comes before a '%' has no `Broken` entry, the parse comes to that '%'. */
  lemma {:induction false} ParseReaches(p: string, i: nat, text: string) returns (pending: string)
    requires i < |p| && p[i] == '%' && CountBroken(Parse(p[..i], text)) == 0
    ensures CountBroken(Parse(p, text)) == CountBroken(Parse(p[i..], pending))
    decreases |p|
  {
    if i == 0 {
      pending := text;
      assert p[0..] == p;
    } else if StartsText(p) {
      ReachesPastText(p, i, text);
      pending := ParseReaches(p[1..], i - 1, text + [p[0]]);
    } else {
      var k := ReachesPastDirective(p, i, text);
      pending := ParseReaches(p[k..], i - k, "");
    }
  }

  lemma ReachesPastText(p: string, i: nat, text: string)
    requires 0 < i < |p| && StartsText(p) && CountBroken(Parse(p[..i], text)) == 0
    ensures Parse(p, text) == Parse(p[1..], text + [p[0]]) && p[1..][i-1..] == p[i..]
    ensures CountBroken(Parse(p[1..][..i-1], text + [p[0]])) == 0
  {
    var q := p[..i];
    ParseChar(p, text);
    assert p[1..][..i-1] == q[1..] && p[1..][i-1..] == p[i..];
    if StartsText(q) { ParseChar(q, text); } else { TextOnly(q[1..], text + [p[0]]); }
  }

  lemma TextOnly(s: string, text: string)
    requires s == ""
    ensures CountBroken(Parse(s, text)) == 0
  {
  }

  lemma ReachesPastDirective(p: string, i: nat, text: string) returns (k: nat)
    requires 0 < i < |p| && p[i] == '%' && !StartsText(p) && CountBroken(Parse(p[..i], text)) == 0
    ensures 0 < k <= i && p[k..][i-k..] == p[i..] && CountBroken(Parse(p[k..][..i-k], "")) == 0
    ensures CountBroken(Parse(p, text)) == CountBroken(Parse(p[k..], ""))
  {
    var m;
    m, k := CutBefore(p[..i], text);
    CutExtends(p, i, m, k);
    CountCut(p, text, m, k);
    CountCut(p[..i], text, m, k);
    assert p[k..][..i-k] == p[..i][k..] && p[k..][i-k..] == p[i..];
  }

  lemma CutBefore(q: string, text: string) returns (m: nat, k: nat)
    requires q != "" && !StartsText(q) && CountBroken(Parse(q, text)) == 0
    ensures CutAt(q, m, k)
  {
    CountDirective(q, text);
    m, k := ReadCut(q);
  }

  lemma CutExtends(p: string, i: nat, m: nat, k: nat)
    requires i < |p| && p[i] == '%' && CutAt(p[..i], m, k)
    ensures CutAt(p, m, k)
  {
    var q := p[..i];
    assert forall j :: 0 <= j < i ==> q[j] == p[j];
  }

  lemma CutShrinks(p: string, i: nat, m: nat, k: nat)
    requires k <= i <= |p| && CutAt(p, m, k)
    ensures CutAt(p[..i], m, k)
  {
    var q := p[..i];
    assert forall j :: 0 <= j < i ==> q[j] == p[j];
  }

  /** The first `Broken` entry comes from such a place, and what is before that has none. */
  lemma {:induction false} FirstBroken(p: string, text: string) returns (i: nat, n: nat)
    requires CountBroken(Parse(p, text)) > 0
    ensures FirstAt(p, text, i, n)
    decreases |p|
  {
    if BreaksHere(p) {
      n := FirstHere(p, text);
      i := 0;
    } else {
      var k, text' := NextStep(p, text);
      var i', n' := FirstBroken(p[k..], text');
      i, n := k + i', k + n';
    }
  }

  predicate BreaksHere(p: string) { p != "" && !StartsText(p) && ReadDirective(p).entry.Broken? }

  /** The parse takes `k` characters, as text or as a directive, and then has `text'` pending. */
  predicate Leads(p: string, text: string, k: nat, text': string, m: nat) {
    if StartsText(p) then k == 1 && text' == text + [p[0]] else CutAt(p, m, k) && text' == ""
  }

  lemma NextStep(p: string, text: string) returns (k: nat, text': string)
    requires CountBroken(Parse(p, text)) > 0 && !BreaksHere(p)
    ensures 0 < k <= |p| && CountBroken(Parse(p[k..], text')) > 0
    ensures forall i: nat, n: nat :: FirstAt(p[k..], text', i, n) ==> FirstAt(p, text, k + i, k + n)
  {
    var m := 0;
    if p == "" { TextOnly(p, text); }
    if StartsText(p) {
      ParseChar(p, text);
      k, text' := 1, text + [p[0]];
    } else {
      m, k := CutFirst(p, text);
      text' := "";
    }
    forall i: nat, n: nat | FirstAt(p[k..], text', i, n) ensures FirstAt(p, text, k + i, k + n) {
      FirstLater(p, text, k, text', m, i, n);
    }
  }

  lemma FirstLater(p: string, text: string, k: nat, text': string, m: nat, i: nat, n: nat)
    requires k <= |p| && Leads(p, text, k, text', m) && FirstAt(p[k..], text', i, n)
    ensures FirstAt(p, text, k + i, k + n)
  {
    if StartsText(p) { FirstInText(p, i, n, text); } else { FirstInDirective(p, i, n, text, m, k); }
  }

  lemma FirstHere(p: string, text: string) returns (n: nat)
    requires BreaksHere(p)
    ensures FirstAt(p, text, 0, n)
  {
    n := BrokenHead(p);
    TextOnly(p[..0], text);
  }

  lemma CutFirst(p: string, text: string) returns (m: nat, k: nat)
    requires p != "" && !StartsText(p) && !ReadDirective(p).entry.Broken?
    ensures CutAt(p, m, k) && CountBroken(Parse(p[k..], "")) == CountBroken(Parse(p, text))
  {
    m, k := ReadCut(p);
    CountCut(p, text, m, k);
  }

  predicate FirstAt(p: string, text: string, i: nat, n: nat) {
    LooseAt(p, i, n) && CountBroken(Parse(p[..i], text)) == 0
  }

  lemma FirstInDirective(p: string, i: nat, n: nat, text: string, m: nat, k: nat)
    requires CutAt(p, m, k) && !StartsText(p) && FirstAt(p[k..], "", i, n)
    ensures FirstAt(p, text, k + i, k + n)
  {
    LooseShift(p, k, i, n);
    CutShrinks(p, k + i, m, k);
    CountHead(p, p[..k+i], p[k..][..i], text, m, k);
  }

  lemma CountHead(p: string, q: string, r: string, text: string, m: nat, k: nat)
    requires CutAt(q, m, k) && !StartsText(p) && q <= p && q[k..] == r
    ensures CountBroken(Parse(q, text)) == CountBroken(Parse(r, ""))
  {
    CountCut(q, text, m, k);
  }

  lemma FirstInText(p: string, i: nat, n: nat, text: string)
    requires StartsText(p) && FirstAt(p[1..], text + [p[0]], i, n)
    ensures FirstAt(p, text, i + 1, n + 1)
  {
    LooseShift(p, 1, i, n);
    var q := p[..i+1];
    assert q[1..] == p[1..][..i];
    if StartsText(q) { ParseChar(q, text); } else { assert q == "%"; LonePercent(q, text); }
  }

  /** The parse of a pattern has a `Broken` entry exactly if the pattern ends inside a '{'. */
  lemma {:induction false} BrokenExactly(p: string, text: string)
    ensures CountBroken(Parse(p, text)) > 0 <==> Unclosed(p)
    decreases |p|
  {
    if CountBroken(Parse(p, text)) > 0 {
      var i, n := FirstBroken(p, text);
      BrokenExactly(p[..i], text);
    }
    if Unclosed(p) {
      var i: nat, n: nat :| LooseAt(p, i, n) && !Unclosed(p[..i]);
      BrokenExactly(p[..i], text);
      var pending := ParseReaches(p, i, text);
      LooseHere(p, i, n);
      LooseHead(p[i..], n - i);
      CountDirective(p[i..], pending);
    }
  }

  lemma LooseHere(p: string, i: nat, n: nat)
    requires LooseAt(p, i, n)
    ensures LooseAt(p[i..], 0, n - i) && p[i..][1] != '%'
  {
    assert p[i..][n-i+1..] == p[n+1..];
    assert p[i..][1] == p[i+1];
  }

  /** The error flag misses that exactly if every name is known. */
  lemma OpenBraceMissedExactly(p: string)
    ensures var es := Parse(p, "");
            CountBroken(es) > 0 && !IsError(p) <==>
              Unclosed(p) && forall i :: 0 <= i < |es| && es[i].Directive? ==> es[i].name in KNOWN
  {
    BrokenExactly(p, "");
  }

  // In closed form, where no '}' stands in a name.

  /** Some '%' with letters and a '{' stands behind the last '}'. */
  ghost predicate Open(s: string) { exists i: nat, n: nat :: OpenAt(s, i, n) }

  predicate OpenAt(s: string, i: nat, n: nat) {
    LooseAt(s, i, n) && forall j :: i < j < n ==> IsLetter(s[j])
  }

  /** No '%' is followed by letters and then a '}'. */
  ghost predicate NoBraceInName(s: string) {
    forall i: nat, n: nat :: i < n < |s| && s[i] == '%' && (forall j :: i < j < n ==> IsLetter(s[j])) ==> s[n] != '}'
  }

  /** Such a '%' always means that the pattern ends inside a '{', */
  lemma OpenIsUnclosed(p: string, i: nat, n: nat)
    requires OpenAt(p, i, n)
    ensures Unclosed(p)
  {
    if Unclosed(p[..i]) {
      var i': nat, n': nat :| LooseAt(p[..i], i', n') && !Unclosed(p[..i][..i']);
      assert p[..i][..i'] == p[..i'];
      StillLoose(p, i, n, i', n');
    }
  }

  lemma StillLoose(p: string, i: nat, n: nat, i': nat, n': nat)
    requires OpenAt(p, i, n) && LooseAt(p[..i], i', n')
    ensures LooseAt(p, i', n')
  {
    var r := p[n'+1..];
    forall j | 0 <= j < |r| ensures r[j] != '}' {
      var k := n' + 1 + j;
      assert r[j] == p[k];
      if k < i { assert p[..i][n'+1..][j] == p[k]; } else if k > n { assert p[n+1..][k-n-1] == p[k]; }
    }
  }

  /** and if no '}' stands in a name, only such a '%' does. */
  lemma UnclosedClosedForm(p: string)
    requires NoBraceInName(p)
    ensures Unclosed(p) <==> Open(p)
  {
    if i: nat, n: nat :| LooseAt(p, i, n) && !Unclosed(p[..i]) {
      var k := i + 1;
      while k < n
        invariant i < k <= n && forall j :: i < j < k ==> IsLetter(p[j])
      {
        k := k + 1;
      }
      assert OpenAt(p, i, n);
    }
    if i: nat, n: nat :| OpenAt(p, i, n) { OpenIsUnclosed(p, i, n); }
  }

  /** Every '{' is closed somewhere later. */
  ghost predicate Closed(s: string) {
    forall i :: 0 <= i < |s| && s[i] == '{' ==> '}' in s[i+1..]
  }

  /** A pattern in which every '{' is closed somewhere later is given back by its entries. */
  lemma ClosedPattern(p: string)
    requires Closed(p)
    ensures CountBroken(Parse(p, "")) == 0 && Render(Parse(p, "")) == p
  {
    BrokenExactly(p, "");
    ReconstructedExactly(p);
  }

  /** What the parser produces it reads back unchanged exactly if the pattern does not end inside a '{'. */
  lemma StableExactly(p: string)
    ensures Parse(Render(Parse(p, "")), "") == Parse(p, "") <==> !Unclosed(p)
  {
    BrokenExactly(p, "");
    ReconstructedExactly(p);
    Reconstruction(Render(Parse(p, "")), "");
  }

  // ---------------------------------------------------------------- round trip

  predicate CanonicalEntry(e: Entry) {
    match e
    case Text(s) => s != "" && '%' !in s
    case Directive(name, arg, braced) =>
      && name != "" && (forall i :: 0 <= i < |name| ==> IsNameChar(name[i]))
      && '}' !in arg && (!braced ==> arg == "")
    case Broken => false
  }

  /** Two neighbours that are not read as something else. */
  predicate Follows(x: Entry, y: Entry) {
    && !(x.Text? && y.Text?)
    && (x.Directive? && !x.braced && y.Text? && y.s != "" ==> !IsNameChar(y.s[0]) && y.s[0] != '{')
  }

  predicate Canonical(es: seq<Entry>) {
    && (forall i :: 0 <= i < |es| ==> CanonicalEntry(es[i]))
    && (forall i :: 0 < i < |es| ==> Follows(es[i-1], es[i]))
  }

  lemma {:induction false} ParseText(t: string, rest: string, text: string)
    requires '%' !in t
    ensures Parse(t + rest, text) == Parse(rest, text + t)
    decreases |t|
  {
    if t == "" {
      assert t + rest == rest && text + t == text;
    } else {
      assert (t + rest)[1..] == t[1..] + rest;
      ParseText(t[1..], rest, text + [t[0]]);
      assert text + [t[0]] + t[1..] == text + t;
    }
  }

  lemma {:induction false} NameLenOf(name: string, rest: string)
    requires forall i :: 0 <= i < |name| ==> IsNameChar(name[i])
    requires rest == "" || !IsNameChar(rest[0])
    ensures NameLen(name + rest) == |name|
  {
    if name == "" {
      assert name + rest == rest;
    } else {
      assert (name + rest)[1..] == name[1..] + rest;
      NameLenOf(name[1..], rest);
    }
  }

  lemma {:induction false} ArgLenOf(arg: string, rest: string)
    requires '}' !in arg
    ensures ArgLen(arg + ("}" + rest)) == |arg|
  {
    if arg == "" {
      assert (arg + ("}" + rest))[0] == '}';
    } else {
      assert (arg + ("}" + rest))[1..] == arg[1..] + ("}" + rest);
      ArgLenOf(arg[1..], rest);
    }
  }

  /** What follows the name of a printed directive. */
  function Tail(d: Entry, rest: string): string
    requires d.Directive?
  {
    if d.braced then "{" + (d.arg + ("}" + rest)) else rest
  }

  lemma PrintShape(d: Entry, rest: string)
    requires d.Directive?
    ensures Print(d) + rest == "%" + (d.name + Tail(d, rest))
  {
    var b := if d.braced then "{" + d.arg + "}" else "";
    Assoc("%" + d.name, b, rest);
    Assoc("%", d.name, b + rest);
    if d.braced {
      Assoc("{" + d.arg, "}", rest);
      Assoc("{", d.arg, "}" + rest);
    } else {
      assert b + rest == rest;
    }
  }

  lemma Split(a: string, b: string)
    ensures (a + b)[..|a|] == a && (a + b)[|a|..] == b
  {
  }

  lemma ReadPlain(d: Entry, rest: string)
    requires d.Directive? && CanonicalEntry(d) && !d.braced
    requires rest != "" ==> !IsNameChar(rest[0]) && rest[0] != '{'
    ensures ReadDirective("%" + (d.name + rest)) == Head(d, rest)
  {
    var s := "%" + (d.name + rest);
    Split("%", d.name + rest);
    Split(d.name, rest);
    NameLenOf(d.name, rest);
    assert s[1..1+|d.name|] == s[1..][..|d.name|] && s[1+|d.name|..] == s[1..][|d.name|..];
  }

  lemma ReadBraced(d: Entry, tail: string, inner: string, rest: string)
    requires d.Directive? && CanonicalEntry(d) && d.braced
    requires tail == "{" + inner && inner == d.arg + ("}" + rest)
    ensures ReadDirective("%" + (d.name + tail)) == Head(d, rest)
  {
    var s := "%" + (d.name + tail);
    Split("%", d.name + tail);
    Split(d.name, tail);
    NameLenOf(d.name, tail);
    assert s[1..1+|d.name|] == s[1..][..|d.name|] && s[1+|d.name|..] == s[1..][|d.name|..];
    BracedTail(d.arg, tail, inner, rest);
  }

  lemma BracedTail(arg: string, tail: string, inner: string, rest: string)
    requires '}' !in arg && tail == "{" + inner && inner == arg + ("}" + rest)
    ensures tail[1..] == inner && ArgLen(inner) == |arg| && |arg| + 2 <= |tail|
    ensures tail[1..1+|arg|] == arg && tail[|arg|+2..] == rest
  {
    Split("{", inner);
    Split(arg, "}" + rest);
    Split("}", rest);
    ArgLenOf(arg, rest);
    assert tail[1..1+|arg|] == tail[1..][..|arg|];
    assert tail[|arg|+2..] == tail[1..][|arg|..][1..];
  }

  lemma ParseDirective(d: Entry, rest: string, text: string)
    requires d.Directive? && CanonicalEntry(d)
    requires !d.braced && rest != "" ==> !IsNameChar(rest[0]) && rest[0] != '{'
    ensures Parse(Print(d) + rest, text) == Flush(text) + [d] + Parse(rest, "")
  {
    PrintShape(d, rest);
    if d.braced {
      ReadBraced(d, Tail(d, rest), d.arg + ("}" + rest), rest);
    } else {
      ReadPlain(d, rest);
    }
    var s := "%" + (d.name + Tail(d, rest));
    assert s[0] == '%' && s[1] == d.name[0];
    ParseHead(s, text);
  }

  /** One step of the parse at a directive. */
  lemma ParseHead(s: string, text: string)
    requires s != "" && s[0] == '%' && (|s| > 1 ==> s[1] != '%')
    ensures var h := ReadDirective(s);
            Parse(s, text) == if h.entry.Broken? then [Broken] + Parse(h.rest, text)
                              else Flush(text) + [h.entry] + Parse(h.rest, "")
  {
  }

  lemma RenderStart(es: seq<Entry>)
    requires es != [] && CanonicalEntry(es[0])
    ensures Render(es) != "" && Render(es)[0] == if es[0].Text? then es[0].s[0] else '%'
  {
  }

  lemma CanonicalTail(es: seq<Entry>)
    requires Canonical(es) && es != []
    ensures Canonical(es[1..])
    ensures |es| > 1 ==> Follows(es[0], es[1]) && RenderStarts(es[1..])
  {
    forall i | 0 < i < |es[1..]| ensures Follows(es[1..][i-1], es[1..][i]) {
      assert es[1..][i-1] == es[i] && es[1..][i] == es[i+1];
    }
    if |es| > 1 {
      assert Follows(es[1-1], es[1]);
      RenderStart(es[1..]);
    }
  }

  predicate RenderStarts(es: seq<Entry>) {
    es != [] && Render(es) != "" && (es[0].Text? ==> es[0].s != "")
    && Render(es)[0] == if es[0].Text? then es[0].s[0] else '%'
  }

  lemma HeadDirective(es: seq<Entry>, text: string)
    requires Canonical(es) && es != [] && es[0].Directive?
    ensures Parse(Render(es), text) == Flush(text) + [es[0]] + Parse(Render(es[1..]), "")
  {
    CanonicalTail(es);
    ParseDirective(es[0], Render(es[1..]), text);
  }

  lemma HeadText(es: seq<Entry>)
    requires Canonical(es) && es != [] && es[0].Text?
    ensures Parse(Render(es), "") == if |es| == 1 then es else [es[0]] + [es[1]] + Parse(Render(es[2..]), "")
  {
    CanonicalTail(es);
    ParseText(es[0].s, Render(es[1..]), "");
    assert "" + es[0].s == es[0].s;
    if |es| > 1 {
      HeadDirective(es[1..], es[0].s);
      assert es[1..][1..] == es[2..];
    }
  }

  /** Pattern round trip: the printed form of a canonical list is parsed back to that list. */
  lemma {:induction false} RoundTrip(es: seq<Entry>)
    requires Canonical(es)
    ensures Parse(Render(es), "") == es
    decreases |es|
  {
    if es != [] {
      CanonicalTail(es);
      if es[0].Directive? {
        HeadDirective(es, "");
        RoundTrip(es[1..]);
      } else {
        HeadText(es);
        if |es| > 1 {
          CanonicalTail(es[1..]);
          assert es[1..][1..] == es[2..];
          RoundTrip(es[2..]);
          assert es == [es[0]] + [es[1]] + es[2..];
        }
      }
    }
  }

  // ---------------------------------------------------------------- the format items

  /** The twelve names `init` knows. */
  const KNOWN: set<string> := {"m", "p", "r", "c", "t", "n", "d", "f", "l", "T", "F", "N"}

  /** A StringFormatItem, or the item of a known name with its argument. */
  datatype Item = Str(s: string) | Field(name: string, arg: string)

  function ItemOf(e: Entry): Item {
    match e
    case Text(s) => Str(s)
    case Directive(name, arg, _) => if name in KNOWN then Field(name, arg) else Str("<<error_format %" + name + ">>")
    case Broken => Str(ERROR_TEXT)
  }

  function ItemsOf(es: seq<Entry>): seq<Item> { seq(|es|, i requires 0 <= i < |es| => ItemOf(es[i])) }

  /** l_error: some directive has a name that is not known. */
  predicate HasError(es: seq<Entry>) {
    exists i :: 0 <= i < |es| && es[i].Directive? && es[i].name !in KNOWN
  }

  predicate IsError(p: string) { HasError(Parse(p, "")) }

  /** The names `init` knows are twelve single letters. */
  lemma KnownExactly(name: string)
    ensures name in KNOWN <==> |name| == 1 && name[0] in "mprctndflTFN"
  {
    assert |name| == 1 ==> name == [name[0]];
  }

  /** The items of a printed canonical list, one by one: text as it stands, a known name with its argument, and an error
      text with the name for any other. */
  lemma ItemsExactly(es: seq<Entry>, i: nat)
    requires Canonical(es) && i < |es|
    ensures var items := ItemsOf(Parse(Render(es), ""));
            && |items| == |es|
            && (es[i].Text? ==> items[i] == Str(es[i].s))
            && (es[i].Directive? ==>
                  items[i] == if |es[i].name| == 1 && es[i].name[0] in "mprctndflTFN" then Field(es[i].name, es[i].arg)
                              else Str("<<error_format %" + es[i].name + ">>"))
  {
    RoundTrip(es);
    if es[i].Directive? { KnownExactly(es[i].name); }
  }

  /** In the items of any pattern an error text stands exactly where a '{' is not closed, or where the pattern
      itself has that text. */
  lemma BrokenItem(p: string, i: nat)
    requires i < |Parse(p, "")|
    ensures |ItemsOf(Parse(p, ""))| == |Parse(p, "")|
    ensures ItemsOf(Parse(p, ""))[i] == Str("<<pattern_error>>")
       <==> Parse(p, "")[i].Broken? || Parse(p, "")[i] == Text("<<pattern_error>>")
  {
    var e := Parse(p, "")[i];
    if e.Directive? && e.name !in KNOWN { ErrorTextsDiffer(e.name); }
  }

  lemma ErrorTextsDiffer(name: string)
    ensures "<<error_format %" + name + ">>" != "<<pattern_error>>"
  {
    assert ("<<error_format %" + name + ">>")[2] == 'e' && "<<pattern_error>>"[2] == 'p';
  }

  /** On canonical lists the error flag is about exactly the names printed. */
  lemma {:induction false} ErrorExactly(es: seq<Entry>)
    requires Canonical(es)
    ensures IsError(Render(es)) <==> exists i :: 0 <= i < |es| && es[i].Directive? && es[i].name !in KNOWN
  {
    RoundTrip(es);
  }

  /** An unterminated '{' is not reported as an error. */
  lemma OpenBraceIsNoError()
    ensures CountBroken(Parse("%d{", "")) == 1 && !IsError("%d{")
  {
    assert "%d{"[1..] == "d{" && "d{"[1..] == "{" && "{"[1..] == "" && "%d{"[2..] == "{";
    assert NameLen("{") == 0 && NameLen("d{") == 1;
    assert ReadDirective("%d{") == Head(Broken, "d{");
    assert "" + ['d'] == "d" && "d" + ['{'] == "d{";
    assert Parse("{", "d") == Parse("", "d{") == [Text("d{")];
    assert Parse("d{", "") == Parse("{", "d");
    assert Parse("%d{", "") == [Broken] + [Text("d{")];
  }

  /** "%%" is no escape: in no place of any pattern does it stand for one '%' of text. */
  lemma DoublePercentNeverEscapes(s: string, text: string)
    ensures Parse("%%" + s, text) != Parse(s, text + "%")
  {
    Reconstruction("%%" + s, text);
    Reconstruction(s, text + "%");
  }

  /** What it does: the first '%' becomes text and the second is read as if it stood alone. */
  lemma DoublePercent(p: string, text: string)
    requires p != "" && p[0] == '%'
    ensures Parse("%" + p, text) == Parse(p, text + "%")
  {
    Split("%", p);
  }
}

/** `LogFormatter`, whose `init` scans the pattern with an index. */
module LogFormatters {
  import opened Pattern

  /** The tuple (text or name, argument, 0 or 1) that `init` collects; it does not keep whether an empty
      argument was written with braces. */
  datatype Tuple = Tuple(str: string, fmt: string, kind: int)

  function TupleOf(e: Entry): Tuple {
    match e
    case Text(s) => Tuple(s, "", 0)
    case Directive(name, arg, _) => Tuple(name, arg, 1)
    case Broken => Tuple(ERROR_TEXT, "", 0)
  }

  function Tuples(es: seq<Entry>): seq<Tuple> { seq(|es|, i requires 0 <= i < |es| => TupleOf(es[i])) }

  lemma TuplesAppend(xs: seq<Entry>, ys: seq<Entry>)
    ensures Tuples(xs + ys) == Tuples(xs) + Tuples(ys)
  {
  }

  lemma TuplesDirective(text: string, d: Entry, es: seq<Entry>)
    ensures Tuples(Flush(text) + [d] + es)
            == (if text == "" then [] else [Tuple(text, "", 0)]) + [TupleOf(d)] + Tuples(es)
  {
  }

  lemma TuplesHead(s: string, text: string)
    requires s != "" && s[0] == '%' && (|s| > 1 ==> s[1] != '%')
    ensures var h := ReadDirective(s);
            Tuples(Parse(s, text))
            == if h.entry.Broken? then [Tuple(ERROR_TEXT, "", 0)] + Tuples(Parse(h.rest, text))
               else (if text == "" then [] else [Tuple(text, "", 0)]) + [TupleOf(h.entry)] + Tuples(Parse(h.rest, ""))
  {
    ParseHead(s, text);
    var h := ReadDirective(s);
    TuplesDirective(text, h.entry, Parse(h.rest, ""));
    TuplesAppend([Broken], Parse(h.rest, text));
  }

  /** The scan, by indices, finds what `ReadDirective` cuts. */
  lemma ScanPlain(p: string, i: nat, n: nat)
    requires i < |p| && p[i] == '%' && n == i + 1 + NameLen(p[i+1..]) && (n < |p| ==> p[n] != '{')
    ensures ReadDirective(p[i..]) == Head(Directive(p[i+1..n], "", false), p[n..])
  {
    var len := n - i - 1;
    assert p[i..][1..] == p[i+1..] && p[i..][1..1+len] == p[i+1..n] && p[i..][1+len..] == p[n..];
  }

  lemma ScanOpen(p: string, i: nat, open: nat)
    requires i < |p| && p[i] == '%' && open == i + 1 + NameLen(p[i+1..]) && open < |p| && p[open] == '{'
    requires forall j :: open < j < |p| ==> p[j] != '}'
    ensures ReadDirective(p[i..]) == Head(Broken, p[i+1..])
  {
    var len := open - i - 1;
    assert p[i..][1..] == p[i+1..] && p[i..][1+len..] == p[open..] && p[open..][1..] == p[open+1..];
    FirstClose(p, open, |p|);
  }

  lemma ScanBraced(p: string, i: nat, open: nat, n: nat)
    requires i < |p| && p[i] == '%' && open == i + 1 + NameLen(p[i+1..]) && open < n < |p| && p[open] == '{'
    requires p[n] == '}' && forall j :: open < j < n ==> p[j] != '}'
    ensures ReadDirective(p[i..]) == Head(Directive(p[i+1..open], p[open+1..n], true), p[n+1..])
  {
    NameCut(p, i, open);
    FirstClose(p, open, n);
    CloseCut(p, open, n);
    ReadAt(p[i..], p[i+1..open], p[open..], p[open+1..n], p[n+1..]);
  }

  lemma NameCut(p: string, i: nat, open: nat)
    requires i < open < |p|
    ensures p[i..][1..] == p[i+1..] && p[i..][1..open-i] == p[i+1..open]
    ensures p[i..][open-i..] == p[open..] && p[open..][1..] == p[open+1..]
  {
  }

  lemma CloseCut(p: string, open: nat, n: nat)
    requires open < n < |p|
    ensures p[open..][1..n-open] == p[open+1..n] && p[open..][n-open+1..] == p[n+1..]
  {
  }

  lemma FirstClose(p: string, open: nat, n: nat)
    requires open < n <= |p| && (n < |p| ==> p[n] == '}')
    requires forall j :: open < j < n ==> p[j] != '}'
    ensures ArgLen(p[open+1..]) == n - open - 1
  {
    var a := ArgLen(p[open+1..]);
    assert a < |p| - open - 1 ==> p[open+1..][a] == p[open + 1 + a];
    assert n < |p| ==> p[open+1..][n-open-1] == p[n];
  }

  /** Where the name of the directive at `i` ends. */
  ghost function NameEnd(p: string, i: nat): (open: nat)
    requires i < |p|
    ensures open == i + 1 + NameLen(p[i+1..]) <= |p|
    ensures forall j :: i < j < open ==> IsNameChar(p[j])
    ensures open < |p| ==> !IsNameChar(p[open])
  {
    var len := NameLen(p[i+1..]);
    assert forall j :: i < j < i + 1 + len ==> p[j] == p[i+1..][j-i-1];
    assert len < |p| - i - 1 ==> p[i+1+len] == p[i+1..][len];
    i + 1 + len
  }

  /** The result of a scan: a directive without braces, an open brace, or a directive with an argument. */
  predicate Scanned(p: string, i: nat, n: nat, status: int, str: string, fmt: string, h: Head) {
    && i < n <= |p| && 0 <= status <= 2
    && (status == 0 ==> h == Head(Directive(p[i+1..n], "", false), p[n..]))
    && (status == 1 ==> h == Head(Broken, p[i+1..]))
    && (status == 2 ==> n < |p| && h == Head(Directive(str, fmt, true), p[n+1..]))
    && (status != 2 ==> fmt == "")
  }

  /** Inside the loop: in the name, in the argument, or at its end. */
  predicate Scanning(p: string, i: nat, open: nat, n: nat, status: int, begin: nat, str: string) {
    && i + 1 <= n <= |p| && i < open <= |p|
    && 0 <= status <= 2
    && (status == 0 ==> n <= open)
    && (status > 0 ==> open < n && p[open] == '{' && begin == open && str == p[i+1..open])
    && (status > 0 ==> forall j :: open < j < n ==> p[j] != '}')
  }

  lemma ScanEnd(p: string, i: nat, open: nat, n: nat, status: int, begin: nat, str: string, fmt: string)
    requires i < |p| && p[i] == '%' && open == NameEnd(p, i) && Scanning(p, i, open, n, status, begin, str)
    requires status == 0 ==> n == |p| || !(IsNameChar(p[n]) || p[n] == '{')
    requires status == 1 ==> n == |p|
    requires status == 2 ==> n < |p| && p[n] == '}' && fmt == p[begin+1..n]
    requires status != 2 ==> fmt == ""
    ensures Scanned(p, i, n, status, str, fmt, ReadDirective(p[i..]))
  {
    if status == 0 {
      EndsPlain(p, i, open, n);
    } else if status == 1 {
      EndsOpen(p, i, open);
    } else {
      EndsBraced(p, i, open, n);
    }
  }

  lemma EndsOpen(p: string, i: nat, open: nat)
    requires i < |p| && p[i] == '%' && open == NameEnd(p, i) < |p| && p[open] == '{'
    requires forall j :: open < j < |p| ==> p[j] != '}'
    ensures ReadDirective(p[i..]) == Head(Broken, p[i+1..])
  {
    ScanOpen(p, i, open);
  }

  lemma EndsBraced(p: string, i: nat, open: nat, n: nat)
    requires i < |p| && p[i] == '%' && open == NameEnd(p, i) < n < |p| && p[open] == '{' && p[n] == '}'
    requires forall j :: open < j < n ==> p[j] != '}'
    ensures ReadDirective(p[i..]) == Head(Directive(p[i+1..open], p[open+1..n], true), p[n+1..])
  {
    ScanBraced(p, i, open, n);
  }

  lemma EndsPlain(p: string, i: nat, open: nat, n: nat)
    requires i < |p| && p[i] == '%' && open == NameEnd(p, i) && i < n <= open
    requires n == |p| || !(IsNameChar(p[n]) || p[n] == '{')
    ensures ReadDirective(p[i..]) == Head(Directive(p[i+1..n], "", false), p[n..])
  {
    assert n == open;
    ScanPlain(p, i, n);
  }

  class LogFormatter {
    const pattern: string
    var items: seq<Item>
    var error: bool

    constructor (pattern: string)
      ensures this.pattern == pattern
      ensures items == ItemsOf(Parse(pattern, "")) && error == IsError(pattern)
    {
      this.pattern := pattern;
      items := [];
      error := false;
      new;
      InitItems();
    }

    /** The scan of one directive from just after its '%': where it stopped and in which state. */
    method Scan(i: nat) returns (n: nat, status: int, str: string, fmt: string)
      requires i < |pattern| && pattern[i] == '%'
      ensures Scanned(pattern, i, n, status, str, fmt, ReadDirective(pattern[i..]))
    {
      n := i + 1;
      status := 0;
      str, fmt := "", "";
      var begin := 0;
      ghost var open := NameEnd(pattern, i);
      while n < |pattern|
        invariant Scanning(pattern, i, open, n, status, begin, str) && fmt == ""
        invariant status != 2
      {
        if status == 0 && !IsLetter(pattern[n]) && pattern[n] != '{' && pattern[n] != '}' {
          break;
        }
        if status == 0 {
          if pattern[n] == '{' {
            str := pattern[i+1..n];
            status := 1;
            begin := n;
            n := n + 1;
            continue;
          }
        }
        if status == 1 {
          if pattern[n] == '}' {
            fmt := pattern[begin+1..n];
            status := 2;
            break;
          }
        }
        n := n + 1;
      }
      ScanEnd(pattern, i, open, n, status, begin, str, fmt);
    }

    /** One turn of the loop: the tuples pushed, and how `i` and `nstr` move on. */
    method Turn(i: nat, nstr: string) returns (pushed: seq<Tuple>, i': nat, nstr': string)
      requires i < |pattern|
      ensures i < i' <= |pattern|
      ensures Tuples(Parse(pattern[i..], nstr)) == pushed + Tuples(Parse(pattern[i'..], nstr'))
    {
      assert pattern[i..][1..] == pattern[i+1..];
      if pattern[i] != '%' {
        return [], i + 1, nstr + [pattern[i]];
      }
      if i + 1 < |pattern| && pattern[i+1] == '%' {
        return [], i + 1, nstr + "%";
      }
      TuplesHead(pattern[i..], nstr);
      pushed, i', nstr' := TurnDirective(i, nstr);
    }

    method TurnDirective(i: nat, nstr: string) returns (pushed: seq<Tuple>, i': nat, nstr': string)
      requires i < |pattern| && pattern[i] == '%' && (i + 1 < |pattern| ==> pattern[i+1] != '%')
      ensures i < i' <= |pattern|
      ensures var h := ReadDirective(pattern[i..]);
              && h.rest == pattern[i'..]
              && pushed == (if h.entry.Broken? then [Tuple(ERROR_TEXT, "", 0)]
                            else (if nstr == "" then [] else [Tuple(nstr, "", 0)]) + [TupleOf(h.entry)])
              && nstr' == if h.entry.Broken? then nstr else ""
    {
      var n, status, str, fmt := Scan(i);
      if status == 1 {
        return [Tuple(ERROR_TEXT, fmt, 0)], i + 1, nstr;
      }
      var flushed := if nstr != "" then [Tuple(nstr, "", 0)] else [];
      if status == 0 {
        str := pattern[i+1..n];
        return flushed + [Tuple(str, fmt, 1)], n, "";
      } else {
        return flushed + [Tuple(str, fmt, 1)], n + 1, "";
      }
    }

    /** The loop over the pattern. */
    method Collect() returns (vec: seq<Tuple>)
      ensures vec == Tuples(Parse(pattern, ""))
    {
      vec := [];
      var nstr := "";
      var i := 0;
      assert pattern[0..] == pattern;
      while i < |pattern|
        invariant 0 <= i <= |pattern|
        invariant Tuples(Parse(pattern, "")) == vec + Tuples(Parse(pattern[i..], nstr))
      {
        var pushed;
        pushed, i, nstr := Turn(i, nstr);
        vec := vec + pushed;
      }
      if nstr != "" {
        vec := vec + [Tuple(nstr, "", 0)];
      }
    }

    /** LogFormatter::init. */
    method InitItems()
      requires items == [] && !error
      modifies this`items, this`error
      ensures items == ItemsOf(Parse(pattern, "")) && error == IsError(pattern)
    {
      var vec := Collect();
      ghost var es := Parse(pattern, "");
      for k := 0 to |vec|
        invariant items == ItemsOf(es[..k]) && error == HasError(es[..k])
      {
        var v := vec[k];
        assert es[..k+1] == es[..k] + [es[k]];
        assert v == TupleOf(es[k]);
        if v.kind == 0 {
          items := items + [Str(v.str)];
        } else if v.str !in KNOWN {
          items := items + [Str("<<error_format %" + v.str + ">>")];
          error := true;
          assert HasError(es[..k+1]) by { assert es[..k+1][k] == es[k]; }
        } else {
          items := items + [Field(v.str, v.fmt)];
        }
      }
      assert es[..|vec|] == es;
    }
  }
}
