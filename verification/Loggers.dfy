/** `Logger`, `LoggerManager` and the listener of the "logs" variable. */
module Loggers {
  import opened Options
  import opened Pattern
  import opened ReconfigureSpec
  import opened ReconfigureTheorems
  import LogFormatters

  /** An appender without a formatter of its own takes the logger's. */
  function Inherit(a: Appender, formatter: string): Appender {
    if a.own then a else a.(formatter := Some(formatter))
  }

  /** An appender before and after its logger got another formatter. */
  predicate Followed(a: Appender, b: Appender, formatter: string) {
    && b.kind == a.kind && b.file == a.file && b.level == a.level && b.own == a.own
    && (a.own ==> b.formatter == a.formatter)
    && (!a.own ==> b.formatter == Some(formatter))
  }

  class Logger {
    const name: string
    var level: int
    var formatter: string
    var appenders: seq<Appender>

    constructor (name: string)
      ensures this.name == name && Settings() == DEFAULT
    {
      this.name, level, formatter, appenders := name, 1, DEFAULT_FORMATTER, [];
    }

    function Settings(): Conf
      reads this
    {
      Conf(level, formatter, appenders)
    }

    method SetLevel(level: int)
      modifies this
      ensures Settings() == old(Settings()).(level := level)
    {
      this.level := level;
    }

    /** addAppender. */
    method AddAppender(appender: Appender)
      modifies this
      ensures var a := if appender.formatter.None? then appender.(formatter := Some(old(formatter))) else appender;
              Settings() == old(Settings()).(appenders := old(appenders) + [a])
    {
      var a := appender;
      if a.formatter.None? {
        a := a.(formatter := Some(formatter));
      }
      appenders := appenders + [a];
    }

    method ClearAppenders()
      modifies this
      ensures Settings() == old(Settings()).(appenders := [])
    {
      appenders := [];
    }

    /** setFormatter, given a formatter: appenders without their own follow. */
    method InstallFormatter(val: string)
      modifies this
      ensures level == old(level) && formatter == val && |appenders| == |old(appenders)|
      ensures forall i :: 0 <= i < |appenders| ==> appenders[i] == Inherit(old(appenders)[i], val)
      ensures forall i :: 0 <= i < |appenders| ==> Followed(old(appenders)[i], appenders[i], val)
    {
      formatter := val;
      var i := 0;
      while i < |appenders|
        invariant i <= |appenders| == |old(appenders)|
        invariant level == old(level) && formatter == val
        invariant forall j :: 0 <= j < i ==> appenders[j] == Inherit(old(appenders)[j], val)
        invariant forall j :: i <= j < |appenders| ==> appenders[j] == old(appenders)[j]
      {
        if !appenders[i].own {
          appenders := appenders[i := appenders[i].(formatter := Some(formatter))];
        }
        i := i + 1;
      }
    }

    /** setFormatter, given a pattern: one in error is refused and changes nothing. */
    method SetFormatter(val: string)
      modifies this
      ensures IsError(val) ==> Settings() == old(Settings())
      ensures !IsError(val) ==> level == old(level) && formatter == val && |appenders| == |old(appenders)|
      ensures !IsError(val) ==> forall i :: 0 <= i < |appenders| ==> Followed(old(appenders)[i], appenders[i], val)
    {
      var parsed := new LogFormatters.LogFormatter(val);
      if parsed.error {
        return;
      }
      formatter := val;
      InstallFormatter(val);
    }
  }

  /** The appender the listener makes from a definition, before it is added. */
  method MakeAppender(a: AppenderDefine) returns (ap: Appender)
    ensures ap == Appender(a.kind, if a.kind == File then a.file else "", a.level,
                           if Usable(a.formatter) then Some(a.formatter) else None, Usable(a.formatter))
  {
    ap := Appender(a.kind, if a.kind == File then a.file else "", a.level, None, false);
    if a.formatter != "" {
      var fmt := new LogFormatters.LogFormatter(a.formatter);
      if !fmt.error {
        ap := ap.(formatter := Some(a.formatter), own := true);
      }
    }
  }

  /** The listener's work on one logger: it ends up as configured, whatever appenders it had. */
  method Configure(logger: Logger, d: LogDefine)
    modifies logger
    ensures logger.Settings() == Configured(old(logger.Settings()), d)
  {
    logger.SetLevel(d.level);
    if d.formatter != "" {
      logger.SetFormatter(d.formatter);
    }
    logger.ClearAppenders();
    ghost var formatter := logger.formatter;
    for i := 0 to |d.appenders|
      invariant logger.level == d.level && logger.formatter == formatter
      invariant logger.appenders == Built(d.appenders[..i], formatter)
    {
      var ap := MakeAppender(d.appenders[i]);
      logger.AddAppender(ap);
      assert d.appenders[..i+1][..i] == d.appenders[..i];
      assert Built(d.appenders[..i+1], formatter)
          == Built(d.appenders[..i], formatter) + [Build(d.appenders[i], formatter)];
    }
    assert d.appenders[..|d.appenders|] == d.appenders;
  }

  class LoggerManager {
    var loggers: map<string, Logger>
    ghost var st: map<string, Conf>

    /** `st` tells the settings of every logger; each name has a logger of its own. */
    ghost predicate Valid()
      reads this, loggers.Values
    {
      && loggers.Keys == st.Keys
      && (forall n :: n in loggers ==> st[n] == loggers[n].Settings())
      && (forall m, n :: m in loggers && n in loggers && m != n ==> loggers[m] != loggers[n])
    }

    constructor ()
      ensures Valid() && fresh(loggers.Values)
      ensures st == map["root" := DEFAULT.(appenders := [Appender(Stdout, "", 1, Some(DEFAULT_FORMATTER), false)])]
    {
      var root := new Logger("root");
      root.AddAppender(Appender(Stdout, "", 1, None, false));
      assert root.appenders == [Appender(Stdout, "", 1, Some(DEFAULT_FORMATTER), false)];
      loggers := map["root" := root];
      st := map["root" := root.Settings()];
    }

    /** getLogger: a name without a logger gets one with the default settings. */
    method GetLogger(name: string) returns (logger: Logger)
      requires Valid()
      modifies this
      ensures Valid() && name in loggers && logger == loggers[name]
      ensures st == old(st)[name := Ask(old(st), name)]
      ensures loggers == old(loggers)[name := logger] && (logger in old(loggers.Values) || fresh(logger))
      ensures forall l :: l in loggers.Values ==> l in old(loggers.Values) || fresh(l)
    {
      if name in loggers {
        return loggers[name];
      }
      logger := new Logger(name);
      loggers := loggers[name := logger];
      st := st[name := DEFAULT];
    }

    /** One definition of the new set. */
    method Update(olds: seq<LogDefine>, d: LogDefine)
      requires Valid()
      modifies this, loggers.Values
      ensures Valid() && st == UpdateOne(old(st), olds, d)
      ensures forall l :: l in loggers.Values ==> l in old(loggers.Values) || fresh(l)
    {
      var it := Find(olds, d.name);
      if it.Some? && Same(d, it.value) {
        return;
      }
      var logger := GetLogger(d.name);
      ConfigureAs(logger, d);
    }

    /** The work on a logger of this manager. */
    method ConfigureAs(logger: Logger, d: LogDefine)
      requires Valid() && d.name in loggers && logger == loggers[d.name]
      modifies this`st, logger
      ensures Valid() && st == old(st)[d.name := Configured(old(st)[d.name], d)]
    {
      Configure(logger, d);
      st := st[d.name := Configured(st[d.name], d)];
    }

    /** One definition of the old set. */
    method Remove(news: seq<LogDefine>, d: LogDefine)
      requires Valid()
      modifies this, loggers.Values
      ensures Valid() && st == RemoveOne(old(st), news, d)
      ensures forall l :: l in loggers.Values ==> l in old(loggers.Values) || fresh(l)
    {
      if Find(news, d.name).None? {
        var logger := GetLogger(d.name);
        Silence(logger, d.name);
      }
    }

    method Silence(logger: Logger, name: string)
      requires Valid() && name in loggers && logger == loggers[name]
      modifies this`st, logger
      ensures Valid() && st == old(st)[name := Silenced(old(st)[name])]
    {
      logger.SetLevel(0);
      logger.ClearAppenders();
      st := st[name := Silenced(st[name])];
    }

    /** The listener. */
    method OnChange(olds: seq<LogDefine>, news: seq<LogDefine>)
      requires Valid()
      modifies this, loggers.Values
      ensures Valid() && st == Reconfigured(old(st), olds, news)
      ensures forall l :: l in loggers.Values ==> l in old(loggers.Values) || fresh(l)
    {
      for i := 0 to |news|
        invariant Valid() && st == Updated(old(st), olds, news[..i])
        invariant forall l :: l in loggers.Values ==> l in old(loggers.Values) || fresh(l)
      {
        assert news[..i+1][..i] == news[..i];
        Update(olds, news[i]);
      }
      assert news[..|news|] == news;
      ghost var mid := st;
      for i := 0 to |olds|
        invariant Valid() && st == Removed(mid, news, olds[..i])
        invariant forall l :: l in loggers.Values ==> l in old(loggers.Values) || fresh(l)
      {
        assert olds[..i+1][..i] == olds[..i];
        Remove(news, olds[i]);
      }
      assert olds[..|olds|] == olds;
    }
  }

  /** The variable "logs" with the listener registered. */
  class LogsVar {
    const manager: LoggerManager
    var stored: seq<LogDefine>

    constructor (manager: LoggerManager)
      ensures this.manager == manager && stored == []
    {
      this.manager := manager;
      stored := [];
    }

    /** setValue. */
    method SetValue(v: seq<LogDefine>)
      requires manager.Valid()
      modifies this, manager, manager.loggers.Values
      ensures manager.Valid()
      ensures World(manager.st, stored) == Request(World(old(manager.st), old(stored)), v)
    {
      var same := Unchanged(v);
      if same {
        return;
      }
      manager.OnChange(stored, v);
      stored := v;
    }

    /** v == m_val. */
    predicate Unchanged(v: seq<LogDefine>)
      reads this
    {
      Equal(v, stored)
    }
  }
}
