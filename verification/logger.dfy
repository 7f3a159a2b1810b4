/**
 The leveled logger of the mlog package. A logger holds one integer
 threshold and four channels, one per severity tier; each emit call writes
 to its channel only when the tier's rank does not exceed the threshold.
 The four underlying line writers are reduced to one abstract sink,
 `written`, a sequence of (channel prefix, message) lines.
 */
module Mlog {
  import opened Strings

  // The severity tiers, most severe first.
  const LevelError: int := 0
  const LevelWarning: int := 1
  const LevelInfo: int := 2
  const LevelDebug: int := 3

  /** The upper-case level names and the tiers they select. */
  const LevelNames: map<string, int> :=
    map["ERROR" := LevelError, "WARNING" := LevelWarning, "INFO" := LevelInfo, "DEBUG" := LevelDebug]

  /** The fixed configuration of one tier's writer; only its line prefix is modelled. */
  datatype Channel = Channel(prefix: string)

  /** One line written to the output sink. */
  datatype Line = Line(prefix: string, text: string)

  /** How a call to `Error` ends: it returns without writing, or it aborts with the message. */
  datatype Outcome = Skipped | Fault(message: string)

  /** The tiers are ranked 0 to 3, from Error (most severe) to Debug. */
  lemma LevelsOrdered()
    ensures LevelError == 0 && LevelWarning == 1 && LevelInfo == 2 && LevelDebug == 3
    ensures LevelError < LevelWarning < LevelInfo < LevelDebug
  {
  }

  /** The filter every emit method applies: a tier of rank `rank` is suppressed when its rank is above `level`. */
  predicate Emits(rank: int, level: int)
  {
    !(rank > level)
  }

  /** A tier that emits at threshold `level` emits at every higher threshold. */
  lemma EmitsMonotoneInLevel(rank: int, level: int, level': int)
    requires Emits(rank, level) && level <= level'
    ensures Emits(rank, level')
  {
  }

  /** When a tier emits, every more severe tier (lower rank) emits too. */
  lemma EmitsMonotoneInSeverity(rank: int, rank': int, level: int)
    requires Emits(rank, level) && rank' <= rank
    ensures Emits(rank', level)
  {
  }

  /** At threshold Debug all four tiers emit; at threshold Error only Error does; below it none does. */
  lemma EmitsAtExtremes(level: int)
    ensures level == LevelDebug ==>
              Emits(LevelError, level) && Emits(LevelWarning, level) &&
              Emits(LevelInfo, level) && Emits(LevelDebug, level)
    ensures level == LevelError ==>
              Emits(LevelError, level) && !Emits(LevelWarning, level) &&
              !Emits(LevelInfo, level) && !Emits(LevelDebug, level)
    ensures level < LevelError ==>
              !Emits(LevelError, level) && !Emits(LevelWarning, level) &&
              !Emits(LevelInfo, level) && !Emits(LevelDebug, level)
  {
  }

  /** The lines one emit call appends to the sink: one line on `ch` carrying `text` when the tier passes the filter, none otherwise. */
  function Emitted(ch: Channel, rank: int, level: int, text: string): (r: seq<Line>)
    ensures |r| <= 1
    ensures r != [] <==> rank <= level
    ensures forall ln :: ln in r ==> ln.prefix == ch.prefix && ln.text == text
  {
    if Emits(rank, level) then [Line(ch.prefix, text)] else []
  }

  /**
   The threshold selected by a level name: the name is upper-cased and looked
   up in the table; a name missing from the table yields the map's zero value,
   0, which is Error's rank.
   */
  function LevelByName(name: string): (r: int)
    ensures LevelError <= r <= LevelDebug
  {
    var key := ToUpper(name);
    if key in LevelNames then LevelNames[key] else 0
  }

  /** Every key of the level-name table is already upper-case. */
  lemma LevelNamesUpper()
    ensures forall key :: key in LevelNames ==> NoLower(key)
  {
  }

  /**
   The name table, stated as casings: a name selects Warning, Info or Debug
   exactly when it is a casing of that tier's name, and selects Error otherwise,
   whether or not it spells "error".
   */
  lemma {:induction false} LevelByNameSpec(name: string)
    ensures LevelByName(name) == LevelWarning <==> IsCasingOf(name, "WARNING")
    ensures LevelByName(name) == LevelInfo <==> IsCasingOf(name, "INFO")
    ensures LevelByName(name) == LevelDebug <==> IsCasingOf(name, "DEBUG")
    ensures LevelByName(name) == LevelError <==>
              !IsCasingOf(name, "WARNING") && !IsCasingOf(name, "INFO") && !IsCasingOf(name, "DEBUG")
    ensures IsCasingOf(name, "ERROR") ==> LevelByName(name) == LevelError
  {
    LevelNamesUpper();
    CasingIffUpper(name, "ERROR");
    CasingIffUpper(name, "WARNING");
    CasingIffUpper(name, "INFO");
    CasingIffUpper(name, "DEBUG");
  }

  /** Any casing of a table name selects that name's tier. */
  lemma {:induction false} LevelByNameIgnoresCase(name: string, key: string)
    requires key in LevelNames && IsCasingOf(name, key)
    ensures LevelByName(name) == LevelNames[key]
  {
    LevelNamesUpper();
    CasingIffUpper(name, key);
  }

  /** A name that is no casing of any table name selects Error's rank: no failure and no "leave unchanged". */
  lemma {:induction false} LevelByNameUnknown(name: string)
    requires forall key :: key in LevelNames ==> !IsCasingOf(name, key)
    ensures LevelByName(name) == LevelError
  {
    LevelByNameSpec(name);
    assert "WARNING" in LevelNames && "INFO" in LevelNames && "DEBUG" in LevelNames;
  }

  /** The package-level defaults a new logger copies; only the default threshold is modelled. */
  class Defaults {
    var level: int

    constructor ()
      ensures level == LevelInfo
    {
      level := LevelInfo;
    }
  }

  class Logger {
    /** The threshold: a tier writes only when its rank is at most this. */
    var level: int
    /** Every line this logger's channels have written, oldest first. */
    var written: seq<Line>
    const err: Channel
    const war: Channel
    const inf: Channel
    const deb: Channel

    /**
     A new logger takes the default threshold as it is at this moment (later
     changes to the defaults do not reach it) and four channels tagged by tier.
     */
    constructor NewLogger(defaults: Defaults)
      ensures level == defaults.level && written == []
      ensures err == Channel("[ERROR]: ") && war == Channel("[WARNING]: ")
      ensures inf == Channel("[INFO]: ") && deb == Channel("[DEBUG]: ")
    {
      level := defaults.level;
      written := [];
      err := Channel("[ERROR]: ");
      war := Channel("[WARNING]: ");
      inf := Channel("[INFO]: ");
      deb := Channel("[DEBUG]: ");
    }

    /**
     Logs the error's message on the error channel and then aborts with that
     same message; when the threshold is below Error's rank it does neither
     and returns normally.
     */
    method Error(message: string) returns (o: Outcome)
      modifies this`written
      ensures level >= LevelError ==> o == Fault(message) && written == old(written) + [Line(err.prefix, message)]
      ensures level < LevelError ==> o == Skipped && written == old(written)
      ensures written == old(written) + Emitted(err, LevelError, level, message)
    {
      if LevelError > level {
        return Skipped;
      }
      written := written + [Line(err.prefix, message)];
      o := Fault(message);
    }

    /** Writes `text` on the warning channel when Warning's rank is at most the threshold. */
    method Warning(text: string)
      modifies this`written
      ensures written == old(written) + Emitted(war, LevelWarning, level, text)
    {
      if LevelWarning > level {
        return;
      }
      written := written + [Line(war.prefix, text)];
    }

    /** Writes `text` on the info channel when Info's rank is at most the threshold. */
    method Info(text: string)
      modifies this`written
      ensures written == old(written) + Emitted(inf, LevelInfo, level, text)
    {
      if LevelInfo > level {
        return;
      }
      written := written + [Line(inf.prefix, text)];
    }

    /** Writes `text` on the debug channel when Debug's rank is at most the threshold. */
    method Debug(text: string)
      modifies this`written
      ensures written == old(written) + Emitted(deb, LevelDebug, level, text)
    {
      if LevelDebug > level {
        return;
      }
      written := written + [Line(deb.prefix, text)];
    }

    /** Sets the threshold to any integer, unchecked; the sink is untouched. */
    method SetLevel(level: int)
      modifies this`level
      ensures this.level == level
    {
      this.level := level;
    }

    /** Sets the threshold from a level name, ignoring case; an unknown name sets Error's rank. */
    method SetLevelByName(name: string)
      modifies this`level
      ensures level == LevelByName(name)
      ensures LevelError <= level <= LevelDebug
    {
      level := LevelByName(name);
    }

    /** The current threshold. */
    method Level() returns (r: int)
      ensures r == level
    {
      r := level;
    }
  }

  /** A client of the logger, showing what callers can rely on from the contracts alone. */
  method Usage()
  {
    var defaults := new Defaults();
    var l := new Logger.NewLogger(defaults);
    defaults.level := LevelDebug;
    var lv := l.Level();
    assert lv == LevelInfo;

    l.Info("count=5");
    l.Debug("hidden");
    assert l.written == [Line("[INFO]: ", "count=5")];

    l.SetLevelByName("InFo");
    lv := l.Level();
    assert IsCasingOf("InFo", "INFO");
    LevelByNameIgnoresCase("InFo", "INFO");
    assert lv == LevelInfo;

    l.SetLevelByName("verbose");
    LevelByNameSpec("verbose");
    lv := l.Level();
    assert lv == LevelError;

    l.SetLevel(-1);
    var o := l.Error("disk full");
    assert o == Skipped && |l.written| == 1;

    l.SetLevel(LevelError);
    l.Warning("ignored");
    o := l.Error("disk full");
    assert o == Fault("disk full");
    assert l.written == [Line("[INFO]: ", "count=5"), Line("[ERROR]: ", "disk full")];
  }
}
