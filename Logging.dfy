/**
 * The gated writers (`pfmt_writer_t`), the per-severity channels
 * (`plog_channel`) and the bundle of six channels (`plog_base`).
 *
 * `pfmt_writer_t` declares `vdowrite` and `plog_channel` is its only
 * implementation here, so the two are one class, `Channel`. The external
 * dispatch object (`plog_dispatch_intf`) is a `Dispatch` whose `VLog` only
 * records, in a ghost sequence, the (severity, text) pairs it is called with.
 */
module Logging {
  import opened Levels
  import opened TypeTraits
  import opened Formatter

  /** One call of the dispatch object's `vlog`. */
  datatype Record = Record(level: Level, text: string)

  /** The sink a channel forwards finished lines to. */
  class Dispatch {
    ghost var records: seq<Record>

    constructor ()
      ensures records == []
    {
      records := [];
    }

    /** `vlog(l, ls)`: whatever the sink does with the line, it was called once with these arguments. */
    method VLog(l: Level, ls: string)
      modifies this
      ensures records == old(records) + [Record(l, ls)]
    {
      records := records + [Record(l, ls)];
    }
  }

  /** Whether a call of a channel reaches the sink: every gate must be open. */
  predicate Passes(buildEnabled: bool, callEnabled: bool, runtimeEnabled: bool)
  {
    buildEnabled && callEnabled && runtimeEnabled
  }

  /** A channel of severity `level` with its build-time gate, its run-time gate and its dispatch pointer. */
  class Channel {
    const level: Level
    const buildEnabled: bool
    const base: Dispatch
    var enabled: bool

    /** A new channel is enabled at run time. */
    constructor (level: Level, buildEnabled: bool, base: Dispatch)
      ensures this.level == level && this.buildEnabled == buildEnabled && this.base == base
      ensures enabled
    {
      this.level := level;
      this.buildEnabled := buildEnabled;
      this.base := base;
      enabled := true;
    }

    method SetEnabled(v: bool)
      modifies this`enabled
      ensures enabled == v
    {
      enabled := v;
    }

    method IsEnabled() returns (b: bool)
      ensures b == enabled
    {
      b := enabled;
    }

    /** `vdowrite`: forwards the line to the dispatch object, tagged with this channel's severity. */
    method VDoWrite(ls: string)
      modifies base
      ensures base.records == old(base.records) + [Record(level, ls)]
    {
      base.VLog(level, ls);
    }

    /** `xlog`: feeds the arguments to the formatter one `operator()` call at a time, left to right. */
    method XLog(pf: Pfmt, args: seq<Arg>, charSigned: bool) returns (r: Pfmt)
      requires ArgsOk(args)
      modifies pf
      ensures r == pf
      ensures pf.consumed == old(pf.consumed) + Directives(args, charSigned)
      ensures args == [] ==> pf.str == old(pf.str) && pf.arg == old(pf.arg)
      decreases |args|
    {
      if args == [] {
        r := pf;
      } else {
        DirectivesCons(args, charSigned);
        var next := pf.Call(args[0], charSigned);
        r := XLog(next, args[1..], charSigned);
      }
    }

    /**
     * `operator()(fmt, args...)`: when the build-time and run-time gates are
     * both open, formats `fmt` with `args` in a fresh formatter `pf` and writes
     * the result exactly once; otherwise writes nothing. The ghost `pf` is the
     * formatter that was used.
     */
    method Call(fmt: string, args: seq<Arg>, charSigned: bool) returns (ghost pf: Pfmt?)
      requires ArgsOk(args)
      modifies base
      ensures enabled == old(enabled)
      ensures Passes(buildEnabled, true, enabled) ==>
                pf != null && fresh(pf) && pf.consumed == Directives(args, charSigned) &&
                (args == [] ==> pf.str == fmt) &&
                base.records == old(base.records) + [Record(level, pf.str)]
      ensures !Passes(buildEnabled, true, enabled) ==> pf == null && base.records == old(base.records)
    {
      pf := null;
      if buildEnabled && enabled {
        var f := new Pfmt(fmt);
        f := XLog(f, args, charSigned);
        VDoWrite(f.AsPString());
        pf := f;
      }
    }

    /**
     * `log<callEnabled>(fmt, args...)`: the same as `Call`, with the caller's
     * own gate `callEnabled` as a third condition.
     */
    method Log(callEnabled: bool, fmt: string, args: seq<Arg>, charSigned: bool) returns (ghost pf: Pfmt?)
      requires ArgsOk(args)
      modifies base
      ensures enabled == old(enabled)
      ensures Passes(buildEnabled, callEnabled, enabled) ==>
                pf != null && fresh(pf) && pf.consumed == Directives(args, charSigned) &&
                (args == [] ==> pf.str == fmt) &&
                base.records == old(base.records) + [Record(level, pf.str)]
      ensures !Passes(buildEnabled, callEnabled, enabled) ==> pf == null && base.records == old(base.records)
    {
      pf := null;
      if buildEnabled && callEnabled && enabled {
        var f := new Pfmt(fmt);
        f := XLog(f, args, charSigned);
        VDoWrite(f.AsPString());
        pf := f;
      }
    }
  }

  /** `plog_base`: one channel per severity, all writing to the same dispatch object. */
  class LogBase {
    const debug: Channel
    const info: Channel
    const verbose: Channel
    const warning: Channel
    const error: Channel
    const fatal: Channel

    /** The channels in severity order. */
    function Channels(): seq<Channel>
    {
      [debug, info, verbose, warning, error, fatal]
    }

    /**
     * The channel at each position has the severity of that rank, writes to
     * `proxy`, and is build-enabled unless it is `debug` with `debugEnabled` false.
     */
    ghost predicate WiredTo(proxy: Dispatch, debugEnabled: bool)
      reads this
    {
      forall i :: 0 <= i < 6 ==>
        Channels()[i].level == AllLevels()[i] &&
        Channels()[i].base == proxy &&
        Channels()[i].buildEnabled == (i != 0 || debugEnabled)
    }

    constructor (proxy: Dispatch, debugEnabled: bool)
      ensures WiredTo(proxy, debugEnabled)
      ensures debug.enabled && info.enabled && verbose.enabled
      ensures warning.enabled && error.enabled && fatal.enabled
      ensures fresh(debug) && fresh(info) && fresh(verbose) && fresh(warning) && fresh(error) && fresh(fatal)
    {
      debug := new Channel(DEBUG, debugEnabled, proxy);
      info := new Channel(INFO, true, proxy);
      verbose := new Channel(VERBOSE, true, proxy);
      warning := new Channel(WARNING, true, proxy);
      error := new Channel(ERROR, true, proxy);
      fatal := new Channel(FATAL, true, proxy);
    }
  }

  /**
   * A bundle in use: with `warning` switched off at run time, a warning reaches
   * the shared sink not at all, and an info line reaches it exactly once,
   * tagged INFO.
   */
  method WarningOffInfoOn(proxy: Dispatch, fmt: string, args: seq<Arg>, charSigned: bool)
    requires ArgsOk(args)
    modifies proxy
    ensures |proxy.records| == |old(proxy.records)| + 1
    ensures proxy.records[..|old(proxy.records)|] == old(proxy.records)
    ensures proxy.records[|old(proxy.records)|].level == INFO
  {
    var log := new LogBase(proxy, false);
    assert log.Channels()[1] == log.info && log.Channels()[3] == log.warning;
    log.warning.SetEnabled(false);
    ghost var none := log.warning.Call(fmt, args, charSigned);
    ghost var one := log.info.Call(fmt, args, charSigned);
  }
}
