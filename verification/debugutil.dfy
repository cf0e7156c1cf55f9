/** `nvvk::DebugUtil`: object names and command-buffer labels for debugging
    tools, all gated by one static flag `s_enabled`, plus the two file-name
    helpers used to build those names. The Vulkan entry points the class
    calls are recorded as events in a log, in call order. */
module DebugUtil {
  import opened Common

  /** `fileNameSplitter`: what follows the later of the last '\' and the last
      '/', or the whole name when it holds neither. */
  function FileNameSplitter(n: string): (r: string)
    ensures |r| <= |n| && r == n[|n| - |r|..]
    ensures '/' !in r && '\\' !in r
    ensures |r| < |n| ==> n[|n| - |r| - 1] == '/' || n[|n| - |r| - 1] == '\\'
  {
    var back := AfterLast(n, '\\');
    var slash := AfterLast(n, '/');
    n[if back < slash then slash else back..]
  }

  /** `upToLastSpace`: what follows the last ' ', or the whole text when it
      holds none (the class name out of a `typeid` name). */
  function UpToLastSpace(n: string): (r: string)
    ensures |r| <= |n| && r == n[|n| - |r|..]
    ensures ' ' !in r
    ensures |r| < |n| ==> n[|n| - |r| - 1] == ' '
  {
    n[AfterLast(n, ' ')..]
  }

  /** A path whose last component has no separator splits back to that
      component, whichever separator comes before it. */
  lemma FileNameOfJoin(dir: string, sep: char, name: string)
    requires sep == '/' || sep == '\\'
    requires '/' !in name && '\\' !in name
    ensures FileNameSplitter(dir + [sep] + name) == name
  {
    var n := dir + [sep] + name;
    var r := FileNameSplitter(n);
    assert n[|dir|] == sep;
  }

  /** Splitting twice gives the same name. */
  lemma FileNameSplitterIdempotent(n: string)
    ensures FileNameSplitter(FileNameSplitter(n)) == FileNameSplitter(n)
  {
    var r := FileNameSplitter(n);
    assert AfterLast(r, '/') == 0 && AfterLast(r, '\\') == 0;
  }

  /** A call `DebugUtil` makes into the driver. */
  datatype Event =
    | SetObjectName(device: nat, handle: nat, name: string, objectType: nat)
    | BeginLabel(cmdBuf: nat, text: string)
    | EndLabel(cmdBuf: nat)
    | InsertLabel(cmdBuf: nat, text: string)

  /** The calls a gated operation issues: `e` when enabled, nothing otherwise. */
  function Gated(enabled: bool, e: Event): (r: seq<Event>)
    ensures enabled ==> r == [e]
    ensures !enabled ==> r == []
  {
    if enabled then [e] else []
  }

  /** Open labels on command buffer `cmdBuf` after `log`: begins minus ends. */
  function Depth(log: seq<Event>, cmdBuf: nat): int
  {
    if log == [] then 0
    else
      var last := log[|log| - 1];
      Depth(log[..|log| - 1], cmdBuf)
        + (if last.BeginLabel? && last.cmdBuf == cmdBuf then 1
           else if last.EndLabel? && last.cmdBuf == cmdBuf then -1
           else 0)
  }

  lemma {:induction false} DepthAppend(a: seq<Event>, b: seq<Event>, cmdBuf: nat)
    ensures Depth(a + b, cmdBuf) == Depth(a, cmdBuf) + Depth(b, cmdBuf)
  {
    if b != [] {
      var ab := a + b;
      assert ab[..|ab| - 1] == a + b[..|b| - 1];
      DepthAppend(a, b[..|b| - 1], cmdBuf);
    } else {
      assert a + b == a;
    }
  }

  /** The static flag `s_enabled`, shared by every `DebugUtil` and every
      scoped label, and the log of driver calls. */
  class Globals {
    var enabled: bool
    var log: seq<Event>

    constructor()
      ensures !enabled && log == []
    {
      enabled := false;
      log := [];
    }
  }

  class Debugger {
    const globals: Globals
    var device: nat

    constructor(globals: Globals, device: nat)
      ensures this.globals == globals && this.device == device
    {
      this.globals := globals;
      this.device := device;
    }

    /** `setEnabled`: one flag for every instance. */
    static method SetEnabled(globals: Globals, state: bool)
      modifies globals`enabled
      ensures globals.enabled == state
    {
      globals.enabled := state;
    }

    /** `setup`. */
    method Setup(device: nat)
      modifies this`device
      ensures this.device == device
    {
      this.device := device;
    }

    /** `setObjectName`: names `handle` on this device when enabled. The
        typed overloads only choose `objectType`. */
    method SetObjectName(handle: nat, name: string, objectType: nat)
      modifies globals`log
      ensures globals.log == old(globals.log) + Gated(globals.enabled, Event.SetObjectName(device, handle, name, objectType))
    {
      if globals.enabled {
        globals.log := globals.log + [Event.SetObjectName(device, handle, name, objectType)];
      }
    }

    method BeginLabel(cmdBuf: nat, text: string)
      modifies globals`log
      ensures globals.log == old(globals.log) + Gated(globals.enabled, Event.BeginLabel(cmdBuf, text))
    {
      if globals.enabled {
        globals.log := globals.log + [Event.BeginLabel(cmdBuf, text)];
      }
    }

    method EndLabel(cmdBuf: nat)
      modifies globals`log
      ensures globals.log == old(globals.log) + Gated(globals.enabled, Event.EndLabel(cmdBuf))
    {
      if globals.enabled {
        globals.log := globals.log + [Event.EndLabel(cmdBuf)];
      }
    }

    method InsertLabel(cmdBuf: nat, text: string)
      modifies globals`log
      ensures globals.log == old(globals.log) + Gated(globals.enabled, Event.InsertLabel(cmdBuf, text))
    {
      if globals.enabled {
        globals.log := globals.log + [Event.InsertLabel(cmdBuf, text)];
      }
    }

    /** `scopeLabel`: a label closed when the returned object goes out of
        scope. It returns the struct as written, whose destructor tests the
        flag again. */
    method ScopeLabel(cmdBuf: nat, text: string) returns (s: ScopedCmdLabelAsWritten)
      modifies globals`log
      ensures fresh(s) && s.globals == globals && s.cmdBuf == cmdBuf
      ensures globals.log == old(globals.log) + Gated(globals.enabled, Event.BeginLabel(cmdBuf, text))
    {
      s := new ScopedCmdLabelAsWritten(globals, cmdBuf, text);
    }
  }

  /** `ScopedCmdLabel` as written: the destructor closes the label when the
      flag is set at destruction time, whatever it was at construction. */
  class ScopedCmdLabelAsWritten {
    const globals: Globals
    const cmdBuf: nat

    constructor(globals: Globals, cmdBuf: nat, text: string)
      modifies globals`log
      ensures this.globals == globals && this.cmdBuf == cmdBuf
      ensures globals.log == old(globals.log) + Gated(globals.enabled, Event.BeginLabel(cmdBuf, text))
    {
      this.globals := globals;
      this.cmdBuf := cmdBuf;
      if globals.enabled {
        globals.log := globals.log + [Event.BeginLabel(cmdBuf, text)];
      }
    }

    /** `setLabel`: an inserted label inside the scope. */
    method SetLabel(text: string)
      modifies globals`log
      ensures globals.log == old(globals.log) + Gated(globals.enabled, Event.InsertLabel(cmdBuf, text))
    {
      if globals.enabled {
        globals.log := globals.log + [Event.InsertLabel(cmdBuf, text)];
      }
    }

    /** `~ScopedCmdLabel`. */
    method Destroy()
      modifies globals`log
      ensures globals.log == old(globals.log) + Gated(globals.enabled, Event.EndLabel(cmdBuf))
    {
      if globals.enabled {
        globals.log := globals.log + [Event.EndLabel(cmdBuf)];
      }
    }
  }

  /** `ScopedCmdLabel` closing exactly the label it opened: whether a begin
      was issued is kept with the object. */
  class ScopedCmdLabel {
    const globals: Globals
    const cmdBuf: nat
    const began: bool

    constructor(globals: Globals, cmdBuf: nat, text: string)
      modifies globals`log
      ensures this.globals == globals && this.cmdBuf == cmdBuf && began == globals.enabled
      ensures globals.log == old(globals.log) + Gated(globals.enabled, Event.BeginLabel(cmdBuf, text))
    {
      this.globals := globals;
      this.cmdBuf := cmdBuf;
      began := globals.enabled;
      if globals.enabled {
        globals.log := globals.log + [Event.BeginLabel(cmdBuf, text)];
      }
    }

    /** `setLabel`: an inserted label inside the scope. */
    method SetLabel(text: string)
      modifies globals`log
      ensures globals.log == old(globals.log) + Gated(globals.enabled, Event.InsertLabel(cmdBuf, text))
    {
      if globals.enabled {
        globals.log := globals.log + [Event.InsertLabel(cmdBuf, text)];
      }
    }

    /** `~ScopedCmdLabel`. */
    method Destroy()
      modifies globals`log
      ensures globals.log == old(globals.log) + Gated(began, Event.EndLabel(cmdBuf))
    {
      if began {
        globals.log := globals.log + [Event.EndLabel(cmdBuf)];
      }
    }
  }

  /** The calls of one labelled scope: the begin when the flag is set at
      construction, the calls `inner` made inside it, the end when the flag
      is set at destruction. */
  function ScopeAsWritten(atBegin: bool, atEnd: bool, cmdBuf: nat, text: string, inner: seq<Event>): seq<Event>
  {
    Gated(atBegin, Event.BeginLabel(cmdBuf, text)) + inner + Gated(atEnd, Event.EndLabel(cmdBuf))
  }

  /** With the flag fixed for the whole scope, the as-written label is
      balanced: the scope adds no open label to its command buffer. */
  lemma ScopeBalancedWhenFlagSteady(enabled: bool, cmdBuf: nat, text: string, inner: seq<Event>)
    ensures Depth(ScopeAsWritten(enabled, enabled, cmdBuf, text, inner), cmdBuf) == Depth(inner, cmdBuf)
  {
    var b := Gated(enabled, Event.BeginLabel(cmdBuf, text));
    var e := Gated(enabled, Event.EndLabel(cmdBuf));
    DepthAppend(b + inner, e, cmdBuf);
    DepthAppend(b, inner, cmdBuf);
  }

  /** Turning the flag off inside a scope leaves its label open, and turning
      it on inside a scope closes a label that was never opened. */
  lemma ToggledScopeUnbalanced(cmdBuf: nat, text: string)
    ensures Depth(ScopeAsWritten(true, false, cmdBuf, text, []), cmdBuf) == 1
    ensures Depth(ScopeAsWritten(false, true, cmdBuf, text, []), cmdBuf) == -1
  {
    assert ScopeAsWritten(true, false, cmdBuf, text, []) == [Event.BeginLabel(cmdBuf, text)];
    assert ScopeAsWritten(false, true, cmdBuf, text, []) == [Event.EndLabel(cmdBuf)];
  }

  /** The calls of one labelled scope when the destructor closes exactly what
      the constructor opened. */
  function Scope(atBegin: bool, cmdBuf: nat, text: string, inner: seq<Event>): seq<Event>
  {
    Gated(atBegin, Event.BeginLabel(cmdBuf, text)) + inner + Gated(atBegin, Event.EndLabel(cmdBuf))
  }

  /** Whatever happens to the flag inside it, a scope adds no open label. */
  lemma ScopeBalanced(atBegin: bool, cmdBuf: nat, text: string, inner: seq<Event>)
    ensures Depth(Scope(atBegin, cmdBuf, text, inner), cmdBuf) == Depth(inner, cmdBuf)
  {
    ScopeBalancedWhenFlagSteady(atBegin, cmdBuf, text, inner);
  }

  /** A scope on a flag toggled mid-way, run through the classes: the
      as-written destructor leaves one label open, the corrected one none. */
  method ToggledScope(globals: Globals, cmdBuf: nat, text: string) returns (asWritten: int, corrected: int)
    modifies globals
    ensures asWritten == 1 && corrected == 0
  {
    globals.enabled := true;
    globals.log := [];
    var w := new ScopedCmdLabelAsWritten(globals, cmdBuf, text);
    Debugger.SetEnabled(globals, false);
    w.Destroy();
    assert globals.log == ScopeAsWritten(true, false, cmdBuf, text, []);
    ToggledScopeUnbalanced(cmdBuf, text);
    asWritten := Depth(globals.log, cmdBuf);

    globals.enabled := true;
    globals.log := [];
    var s := new ScopedCmdLabel(globals, cmdBuf, text);
    Debugger.SetEnabled(globals, false);
    s.Destroy();
    assert globals.log == Scope(true, cmdBuf, text, []);
    ScopeBalanced(true, cmdBuf, text, []);
    corrected := Depth(globals.log, cmdBuf);
  }
}
