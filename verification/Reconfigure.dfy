/** Bringing the loggers in line with a changed configuration: the values. */
module ReconfigureSpec {
  import opened Options
  import opened Pattern

  datatype Kind = File | Stdout

  datatype AppenderDefine = AppenderDefine(kind: Kind, level: int, formatter: string, file: string)

  datatype LogDefine = LogDefine(name: string, level: int, formatter: string, appenders: seq<AppenderDefine>)

  /** LogDefine::operator==, which compares this definition's appenders with themselves. */
  predicate Same(a: LogDefine, b: LogDefine) {
    a.name == b.name && a.level == b.level && a.formatter == b.formatter
  }

  /** An appender: `own` is l_hasFormatter, the formatter is given by its pattern. */
  datatype Appender = Appender(kind: Kind, file: string, level: int, formatter: Option<string>, own: bool)

  /** A logger's settings. */
  datatype Conf = Conf(level: int, formatter: string, appenders: seq<Appender>)

  const DATE_FORMAT: string := "%Y-%m-%d %H:%M:%S"

  /** "%d{%Y-%m-%d %H:%M:%S}%T%t%T%N%T%m%n" */
  const DEFAULT_FORMATTER: string :=
    "%d" + ("{" + DATE_FORMAT + "}") + ("%T" + ("%t" + ("%T" + ("%N" + ("%T" + ("%m" + ("%n" + "")))))))
  const DEFAULT: Conf := Conf(1, DEFAULT_FORMATTER, [])

  predicate Usable(formatter: string) { formatter != "" && !IsError(formatter) }

  // ---------------------------------------------------------------- what a definition asks for

  /** The appender a definition describes, in a logger with this formatter. */
  function Build(a: AppenderDefine, formatter: string): Appender {
    Appender(a.kind, if a.kind == File then a.file else "", a.level,
             Some(if Usable(a.formatter) then a.formatter else formatter), Usable(a.formatter))
  }

  function Built(ds: seq<AppenderDefine>, formatter: string): seq<Appender> {
    seq(|ds|, i requires 0 <= i < |ds| => Build(ds[i], formatter))
  }

  /** A logger agrees with its definition. */
  predicate Agrees(c: Conf, d: LogDefine) {
    && c.level == d.level
    && (Usable(d.formatter) ==> c.formatter == d.formatter)
    && c.appenders == Built(d.appenders, c.formatter)
  }

  // ---------------------------------------------------------------- what the listener does

  function Configured(c: Conf, d: LogDefine): Conf {
    var formatter := if Usable(d.formatter) then d.formatter else c.formatter;
    Conf(d.level, formatter, Built(d.appenders, formatter))
  }

  function Silenced(c: Conf): Conf { Conf(0, c.formatter, []) }

  function Lookup<V>(m: map<string, V>, name: string): Option<V> { if name in m then Some(m[name]) else None }

  /** A logger that is not there is made with the default settings when it is asked for. */
  function Ask(st: map<string, Conf>, name: string): Conf { if name in st then st[name] else DEFAULT }

  /** std::set::find: the definition of that name. */
  function Find(ds: seq<LogDefine>, name: string): (r: Option<LogDefine>)
    ensures r.Some? ==> r.value in ds && r.value.name == name
    ensures r.None? ==> forall i :: 0 <= i < |ds| ==> ds[i].name != name
  {
    if ds == [] then None
    else if ds[|ds|-1].name == name then Some(ds[|ds|-1])
    else Find(ds[..|ds|-1], name)
  }

  /** A std::set of definitions holds each name once. */
  predicate OncePerName(ds: seq<LogDefine>) {
    forall i, j :: 0 <= i < j < |ds| ==> ds[i].name != ds[j].name
  }

  /** The definition is new or, for operator==, changed. */
  predicate Changed(olds: seq<LogDefine>, d: LogDefine) {
    var o := Find(olds, d.name);
    o.None? || !Same(d, o.value)
  }

  function UpdateOne(st: map<string, Conf>, olds: seq<LogDefine>, d: LogDefine): map<string, Conf> {
    if Changed(olds, d) then st[d.name := Configured(Ask(st, d.name), d)] else st
  }

  /** The first loop. */
  function Updated(st: map<string, Conf>, olds: seq<LogDefine>, news: seq<LogDefine>): map<string, Conf> {
    if news == [] then st else UpdateOne(Updated(st, olds, news[..|news|-1]), olds, news[|news|-1])
  }

  function RemoveOne(st: map<string, Conf>, news: seq<LogDefine>, d: LogDefine): map<string, Conf> {
    if Find(news, d.name).None? then st[d.name := Silenced(Ask(st, d.name))] else st
  }

  /** The second loop. */
  function Removed(st: map<string, Conf>, news: seq<LogDefine>, olds: seq<LogDefine>): map<string, Conf> {
    if olds == [] then st else RemoveOne(Removed(st, news, olds[..|olds|-1]), news, olds[|olds|-1])
  }

  function Reconfigured(st: map<string, Conf>, olds: seq<LogDefine>, news: seq<LogDefine>): map<string, Conf> {
    Removed(Updated(st, olds, news), news, olds)
  }
}

/** What the listener achieves. */
module ReconfigureTheorems {
  import opened Options
  import opened Pattern
  import opened ReconfigureSpec

  lemma {:induction false} UpdatedAt(st: map<string, Conf>, olds: seq<LogDefine>, news: seq<LogDefine>, name: string)
    requires OncePerName(news)
    ensures var d := Find(news, name);
            Lookup(Updated(st, olds, news), name)
            == if d.Some? && Changed(olds, d.value) then Some(Configured(Ask(st, name), d.value)) else Lookup(st, name)
  {
    if news != [] {
      var (front, d) := (news[..|news|-1], news[|news|-1]);
      UpdatedAt(st, olds, front, name);
    }
  }

  lemma {:induction false} RemovedAt(st: map<string, Conf>, news: seq<LogDefine>, olds: seq<LogDefine>, name: string)
    requires OncePerName(olds)
    ensures Lookup(Removed(st, news, olds), name)
         == if Find(olds, name).Some? && Find(news, name).None? then Some(Silenced(Ask(st, name))) else Lookup(st, name)
  {
    if olds != [] {
      var (front, d) := (olds[..|olds|-1], olds[|olds|-1]);
      RemovedAt(st, news, front, name);
    }
  }

  // ---------------------------------------------------------------- one change

  /** Every definition has its logger, and they agree. */
  predicate Settled(st: map<string, Conf>, ds: seq<LogDefine>) {
    forall i :: 0 <= i < |ds| ==> ds[i].name in st && Agrees(st[ds[i].name], ds[i])
  }

  /** Two appender definitions that ask for the same appender, whatever logger it is for. */
  predicate SameAppender(a: AppenderDefine, b: AppenderDefine) {
    && a.kind == b.kind && a.level == b.level && (a.kind == File ==> a.file == b.file)
    && (Usable(a.formatter) || Usable(b.formatter) ==> a.formatter == b.formatter)
  }

  predicate SameAppenders(xs: seq<AppenderDefine>, ys: seq<AppenderDefine>) {
    |xs| == |ys| && forall i :: 0 <= i < |xs| ==> SameAppender(xs[i], ys[i])
  }

  lemma BuiltSame(xs: seq<AppenderDefine>, ys: seq<AppenderDefine>, formatter: string)
    ensures Built(xs, formatter) == Built(ys, formatter) <==> SameAppenders(xs, ys)
  {
    if Built(xs, formatter) == Built(ys, formatter) {
      forall i | 0 <= i < |xs| ensures |xs| == |ys| && SameAppender(xs[i], ys[i]) {
        assert |Built(xs, formatter)| == |Built(ys, formatter)|;
        assert Built(xs, formatter)[i] == Built(ys, formatter)[i];
      }
    }
  }

  lemma {:induction false} FindSelf(ds: seq<LogDefine>, i: nat)
    requires OncePerName(ds) && i < |ds|
    ensures Find(ds, ds[i].name) == Some(ds[i])
  {
    if i < |ds| - 1 { FindSelf(ds[..|ds|-1], i); }
  }

  /** The change this definition asks for gets through: operator== sees it, or its appenders are as before. */
  predicate GetsThrough(olds: seq<LogDefine>, d: LogDefine) {
    Changed(olds, d) || SameAppenders(d.appenders, Find(olds, d.name).value.appenders)
  }

  lemma OneAgrees(st: map<string, Conf>, olds: seq<LogDefine>, news: seq<LogDefine>, i: nat)
    requires OncePerName(olds) && OncePerName(news) && Settled(st, olds) && i < |news|
    ensures var r := Reconfigured(st, olds, news);
            news[i].name in r && (Agrees(r[news[i].name], news[i]) <==> GetsThrough(olds, news[i]))
  {
    var d := news[i];
    FindSelf(news, i);
    UpdatedAt(st, olds, news, d.name);
    RemovedAt(Updated(st, olds, news), news, olds, d.name);
    if !Changed(olds, d) {
      var o := Find(olds, d.name).value;
      var k :| 0 <= k < |olds| && olds[k] == o;
      BuiltSame(d.appenders, o.appenders, st[d.name].formatter);
    }
  }

  /** Incremental reconfiguration, exactly: if the loggers agreed with the old definitions they agree with the
      new ones if and only if each definition that operator== takes for unchanged asks for the same appenders. */
  lemma AgreesExactly(st: map<string, Conf>, olds: seq<LogDefine>, news: seq<LogDefine>)
    requires OncePerName(olds) && OncePerName(news) && Settled(st, olds)
    ensures Settled(Reconfigured(st, olds, news), news)
            <==> forall i :: 0 <= i < |news| ==> GetsThrough(olds, news[i])
  {
    forall i | 0 <= i < |news|
      ensures var r := Reconfigured(st, olds, news);
              news[i].name in r && (Agrees(r[news[i].name], news[i]) <==> GetsThrough(olds, news[i]))
    {
      OneAgrees(st, olds, news, i);
    }
  }

  /** A logger whose definition is gone has level 0 and no appenders, one never named is as it was. */
  lemma {:induction false} OthersExactly(st: map<string, Conf>, olds: seq<LogDefine>, news: seq<LogDefine>,
                                         name: string)
    requires OncePerName(olds) && OncePerName(news) && Find(news, name).None?
    ensures var r := Reconfigured(st, olds, news);
            && (Find(olds, name).Some? ==>
                  name in r && r[name].level == 0 && r[name].appenders == []
                  && r[name].formatter == (if name in st then st[name].formatter else DEFAULT_FORMATTER))
            && (Find(olds, name).None? ==> Lookup(r, name) == Lookup(st, name))
  {
    UpdatedAt(st, olds, news, name);
    RemovedAt(Updated(st, olds, news), news, olds, name);
  }

  /** For operator== a definition is unchanged exactly if an old one has its name, level and formatter. */
  lemma ChangedExactly(olds: seq<LogDefine>, d: LogDefine)
    requires OncePerName(olds)
    ensures Changed(olds, d)
       <==> !exists o :: o in olds && o.name == d.name && o.level == d.level && o.formatter == d.formatter
  {
    if o :| o in olds && o.name == d.name && o.level == d.level && o.formatter == d.formatter {
      var i :| 0 <= i < |olds| && olds[i] == o;
      FindSelf(olds, i);
    }
  }

  /** An appender is what its definition says, with its own pattern if that is one without errors, else the logger's. */
  predicate IsAsDefined(ap: Appender, a: AppenderDefine, formatter: string) {
    && ap.kind == a.kind && ap.level == a.level && ap.file == (if a.kind == File then a.file else "")
    && (ap.own <==> a.formatter != "" && !IsError(a.formatter))
    && ap.formatter == Some(if ap.own then a.formatter else formatter)
  }

  /** Field by field, the logger of a new definition: left alone if the definition is unchanged for operator==,
      else with the level and the appenders it says, and with its pattern unless that is empty or in error. */
  lemma FieldsExactly(st: map<string, Conf>, olds: seq<LogDefine>, news: seq<LogDefine>, i: nat)
    requires OncePerName(olds) && OncePerName(news) && i < |news|
    ensures var (r, d) := (Reconfigured(st, olds, news), news[i]);
            && (!Changed(olds, d) ==> Lookup(r, d.name) == Lookup(st, d.name))
            && (Changed(olds, d) ==> d.name in r && FieldsOf(r[d.name], d, Lookup(st, d.name)))
  {
    var d := news[i];
    FindSelf(news, i);
    UpdatedAt(st, olds, news, d.name);
    RemovedAt(Updated(st, olds, news), news, olds, d.name);
  }

  predicate FieldsOf(c: Conf, d: LogDefine, was: Option<Conf>) {
    && c.level == d.level
    && c.formatter == (if d.formatter != "" && !IsError(d.formatter) then d.formatter
                       else if was.Some? then was.value.formatter else DEFAULT_FORMATTER)
    && |c.appenders| == |d.appenders|
    && (forall j :: 0 <= j < |c.appenders| ==> IsAsDefined(c.appenders[j], d.appenders[j], c.formatter))
  }

  const BARE: LogDefine := LogDefine("a", 1, "", [])
  const WITH_STDOUT: LogDefine := LogDefine("a", 1, "", [AppenderDefine(Stdout, 0, "", "")])

  /** Adding an appender and nothing else is lost. */
  lemma AppenderChangeLost()
    ensures Settled(map["a" := DEFAULT], [BARE])
    ensures !Settled(Reconfigured(map["a" := DEFAULT], [BARE], [WITH_STDOUT]), [WITH_STDOUT])
  {
    assert Built([], DEFAULT.formatter) == [];
    assert Find([BARE], "a") == Some(BARE);
    assert !GetsThrough([BARE], [WITH_STDOUT][0]);
    AgreesExactly(map["a" := DEFAULT], [BARE], [WITH_STDOUT]);
  }

  // ---------------------------------------------------------------- runs of changes

  /** The loggers and the stored value of the variable "logs". */
  datatype World = World(st: map<string, Conf>, stored: seq<LogDefine>)

  /** Equality of two sets of definitions, by operator==: the same names, none changed. */
  predicate Equal(a: seq<LogDefine>, b: seq<LogDefine>) {
    && (forall i :: 0 <= i < |a| ==> !Changed(b, a[i]))
    && (forall i :: 0 <= i < |b| ==> Find(a, b[i].name).Some?)
  }

  /** setValue: nothing at all happens for a value equal to the stored one. */
  function Request(w: World, v: seq<LogDefine>): World {
    if Equal(v, w.stored) then w else World(Reconfigured(w.st, w.stored, v), v)
  }

  function Requests(w: World, vs: seq<seq<LogDefine>>): World {
    if vs == [] then w else Request(Requests(w, vs[..|vs|-1]), vs[|vs|-1])
  }

  predicate AllGetThrough(olds: seq<LogDefine>, news: seq<LogDefine>) {
    forall i :: 0 <= i < |news| ==> GetsThrough(olds, news[i])
  }

  /** No request of the run changes appenders behind operator=='s back. */
  predicate Lossless(w: World, vs: seq<seq<LogDefine>>) {
    vs == [] || (Lossless(w, vs[..|vs|-1]) && AllGetThrough(Requests(w, vs[..|vs|-1]).stored, vs[|vs|-1]))
  }

  lemma EqualChangesNothing(st: map<string, Conf>, olds: seq<LogDefine>, news: seq<LogDefine>)
    requires OncePerName(olds) && OncePerName(news) && Equal(news, olds)
    ensures forall name :: Lookup(Reconfigured(st, olds, news), name) == Lookup(st, name)
  {
    forall name ensures Lookup(Reconfigured(st, olds, news), name) == Lookup(st, name) {
      UpdatedAt(st, olds, news, name);
      RemovedAt(Updated(st, olds, news), news, olds, name);
    }
  }

  /** Two definitions that operator== does not tell apart. */
  predicate Alike(a: LogDefine, b: LogDefine) {
    a.name == b.name && a.level == b.level && a.formatter == b.formatter
  }

  /** Each definition has one like it among the others, both ways. */
  ghost predicate AllAlike(olds: seq<LogDefine>, news: seq<LogDefine>) {
    && (forall d :: d in news ==> exists o :: o in olds && Alike(o, d))
    && (forall o :: o in olds ==> exists d :: d in news && Alike(o, d))
  }

  /** A value whose definitions are like the stored ones is ignored, with whatever appenders it has; any other is
      stored. */
  lemma StoredExactly(w: World, v: seq<LogDefine>)
    requires OncePerName(w.stored) && OncePerName(v)
    ensures AllAlike(w.stored, v) ==> Request(w, v) == w
    ensures !AllAlike(w.stored, v) ==> Request(w, v).stored == v
  {
    if Equal(v, w.stored) { EqualIsAlike(w, v); } else { DifferenceShows(w, v); }
  }

  lemma EqualIsAlike(w: World, v: seq<LogDefine>)
    requires OncePerName(w.stored) && OncePerName(v) && Equal(v, w.stored)
    ensures AllAlike(w.stored, v)
  {
    forall d | d in v ensures exists o :: o in w.stored && Alike(o, d) {
      var i :| 0 <= i < |v| && v[i] == d;
      ChangedExactly(w.stored, v[i]);
    }
    forall o | o in w.stored ensures exists d :: d in v && Alike(o, d) {
      var i :| 0 <= i < |w.stored| && w.stored[i] == o;
      StoredHasAlike(w, v, i);
    }
  }

  lemma StoredHasAlike(w: World, v: seq<LogDefine>, i: nat)
    requires OncePerName(w.stored) && Equal(v, w.stored) && i < |w.stored|
    ensures exists d :: d in v && Alike(w.stored[i], d)
  {
    var d := Find(v, w.stored[i].name).value;
    var j :| 0 <= j < |v| && v[j] == d;
    FindSelf(w.stored, i);
    assert !Changed(w.stored, v[j]);
    assert d in v && Alike(w.stored[i], d);
  }

  lemma DifferenceShows(w: World, v: seq<LogDefine>)
    requires OncePerName(w.stored) && !Equal(v, w.stored)
    ensures (exists d :: d in v && forall o :: o in w.stored ==> !Alike(o, d))
            || (exists o :: o in w.stored && forall d :: d in v ==> !Alike(o, d))
  {
    if i :| 0 <= i < |v| && Changed(w.stored, v[i]) {
      ChangedExactly(w.stored, v[i]);
      assert v[i] in v && forall o :: o in w.stored ==> !Alike(o, v[i]);
    } else {
      var i :| 0 <= i < |w.stored| && Find(v, w.stored[i].name).None?;
      assert w.stored[i] in w.stored && forall d :: d in v ==> !Alike(w.stored[i], d);
    }
  }

  /** One request, exactly: the loggers agree with what was asked for if and only if every change gets through. */
  lemma RequestExactly(w: World, v: seq<LogDefine>)
    requires OncePerName(w.stored) && OncePerName(v) && Settled(w.st, w.stored)
    ensures Settled(Request(w, v).st, v) <==> AllGetThrough(w.stored, v)
  {
    AgreesExactly(w.st, w.stored, v);
    if Equal(v, w.stored) {
      EqualChangesNothing(w.st, w.stored, v);
      var r := Reconfigured(w.st, w.stored, v);
      forall i | 0 <= i < |v|
        ensures v[i].name in w.st <==> v[i].name in r
        ensures v[i].name in w.st ==> r[v[i].name] == w.st[v[i].name]
      {
        assert Lookup(r, v[i].name) == Lookup(w.st, v[i].name);
      }
    }
  }

  /** Over a run of requests the loggers agree with the latest one, as long as every change gets through. */
  lemma {:induction false} RunsAgree(w: World, vs: seq<seq<LogDefine>>)
    requires OncePerName(w.stored) && Settled(w.st, w.stored) && Lossless(w, vs)
    requires forall i :: 0 <= i < |vs| ==> OncePerName(vs[i])
    ensures var r := Requests(w, vs);
            && OncePerName(r.stored) && Settled(r.st, r.stored)
            && (vs != [] ==> Settled(r.st, vs[|vs|-1]))
  {
    if vs != [] {
      var front := vs[..|vs|-1];
      RunsAgree(w, front);
      RequestExactly(Requests(w, front), vs[|vs|-1]);
    }
  }

  // ---------------------------------------------------------------- no pattern in error is ever installed

  predicate Sane(c: Conf) {
    && !IsError(c.formatter)
    && (forall i :: 0 <= i < |c.appenders| && c.appenders[i].formatter.Some? ==>
          !IsError(c.appenders[i].formatter.value))
  }

  function Bare(name: string): Entry { Directive(name, "", false) }

  lemma RenderField(name: string, piece: string, es: seq<Entry>, rest: string)
    requires piece == "%" + name && Render(es) == rest
    ensures Render([Bare(name)] + es) == piece + rest
  {
    RenderAppend([Bare(name)], es);
    RenderOne(Bare(name));
    PrintBare(name);
  }

  lemma PrintBare(name: string)
    ensures Print(Bare(name)) == "%" + name
  {
    assert "%" + name + "" == "%" + name;
  }

  function DefaultFields(): seq<Entry> {
    [Bare("T")] + ([Bare("t")] + ([Bare("T")] + ([Bare("N")] + ([Bare("T")] + ([Bare("m")] + ([Bare("n")] + []))))))
  }

  lemma RenderFields()
    ensures Render(DefaultFields()) == "%T" + ("%t" + ("%T" + ("%N" + ("%T" + ("%m" + ("%n" + ""))))))
  {
    RenderField("n", "%n", [], "");
    var es1 := [Bare("n")] + [];
    RenderField("m", "%m", es1, "%n" + "");
    var es2 := [Bare("m")] + es1;
    RenderField("T", "%T", es2, "%m" + ("%n" + ""));
    var es3 := [Bare("T")] + es2;
    RenderField("N", "%N", es3, "%T" + ("%m" + ("%n" + "")));
    var es4 := [Bare("N")] + es3;
    RenderField("T", "%T", es4, "%N" + ("%T" + ("%m" + ("%n" + ""))));
    var es5 := [Bare("T")] + es4;
    RenderField("t", "%t", es5, "%T" + ("%N" + ("%T" + ("%m" + ("%n" + "")))));
    var es6 := [Bare("t")] + es5;
    RenderField("T", "%T", es6, "%t" + ("%T" + ("%N" + ("%T" + ("%m" + ("%n" + ""))))));
  }

  lemma RenderDate(arg: string, es: seq<Entry>)
    ensures Render([Directive("d", arg, true)] + es) == "%d" + ("{" + arg + "}") + Render(es)
  {
    RenderAppend([Directive("d", arg, true)], es);
    RenderOne(Directive("d", arg, true));
    assert "%" + "d" == "%d";
  }

  predicate KnownField(e: Entry) { e.Directive? && !e.braced && e.arg == "" && e.name in KNOWN }

  lemma FieldsAreKnown(es: seq<Entry>)
    requires forall i :: 0 <= i < |es| ==> KnownField(es[i])
    ensures var all := [Directive("d", DATE_FORMAT, true)] + es;
            Canonical(all) && !HasError(all)
  {
    var all := [Directive("d", DATE_FORMAT, true)] + es;
    forall i | 0 <= i < |all| ensures CanonicalEntry(all[i]) && all[i].Directive? && all[i].name in KNOWN {
      assert i > 0 ==> all[i] == es[i-1];
    }
  }

  lemma DefaultIsSane()
    ensures Sane(DEFAULT)
  {
    var es := DefaultFields();
    assert forall i :: 0 <= i < |es| ==> KnownField(es[i]);
    FieldsAreKnown(es);
    DefaultRendered();
    RoundTrip([Directive("d", DATE_FORMAT, true)] + es);
  }

  lemma DefaultRendered()
    ensures Render([Directive("d", DATE_FORMAT, true)] + DefaultFields()) == DEFAULT_FORMATTER
  {
    RenderFields();
    RenderDate(DATE_FORMAT, DefaultFields());
  }

  lemma AskedIsSane(st: map<string, Conf>, name: string)
    requires forall n :: n in st ==> Sane(st[n])
    ensures Sane(Ask(st, name))
  {
    DefaultIsSane();
  }

  /** Whatever patterns a configuration holds, no logger and no appender is left with one in error. */
  lemma NoErrorInstalled(st: map<string, Conf>, olds: seq<LogDefine>, news: seq<LogDefine>, name: string)
    requires OncePerName(olds) && OncePerName(news)
    requires forall n :: n in st ==> Sane(st[n])
    ensures name in Reconfigured(st, olds, news) ==> Sane(Reconfigured(st, olds, news)[name])
  {
    AskedIsSane(st, name);
    UpdatedAt(st, olds, news, name);
    RemovedAt(Updated(st, olds, news), news, olds, name);
  }
}
