/** The pane library the terminal UI drives (`cockpit::PaneManager` and its
    value types). Its behaviour is not modelled: the manager records the
    calls made on it, and the outcome of each fallible call is supplied by
    the caller. */
module Cockpit {
  import opened Wrappers

  type PaneId = nat

  /** Terminal dimensions are `u16` in the UI. */
  type U16 = x: int | 0 <= x < 0x1_0000

  datatype PaneSize = PaneSize(rows: U16, cols: U16)

  /** A spawn request built from a profile (`SpawnConfig`). */
  datatype SpawnConfig = SpawnConfig(
    command: Option<string>,
    args: seq<string>,
    cwd: Option<string>,
    env: map<string, string>,
    scrollback: Option<nat>)

  datatype KeyCode = Char(c: char) | Other(code: nat)

  datatype Modifier = Control | Shift | Alt | Super

  datatype KeyEvent = KeyEvent(code: KeyCode, modifiers: set<Modifier>)

  datatype Call =
    | Spawned(config: SpawnConfig)
    | Resized(pane: PaneId, size: PaneSize)
    | Focused(pane: PaneId)
    | KeyRouted(key: KeyEvent)
    | InputSent(text: string)

  class PaneManager {
    var calls: seq<Call>

    constructor ()
      ensures calls == []
    {
      calls := [];
    }

    /** `spawn`; `outcome` is the new pane's id, or `None` when spawning fails. */
    method Spawn(config: SpawnConfig, outcome: Option<PaneId>) returns (pane: Option<PaneId>)
      modifies this
      ensures calls == old(calls) + [Spawned(config)]
      ensures pane == outcome
    {
      calls := calls + [Spawned(config)];
      pane := outcome;
    }

    method ResizePane(pane: PaneId, size: PaneSize)
      modifies this
      ensures calls == old(calls) + [Resized(pane, size)]
    {
      calls := calls + [Resized(pane, size)];
    }

    method SetFocus(pane: PaneId)
      modifies this
      ensures calls == old(calls) + [Focused(pane)]
    {
      calls := calls + [Focused(pane)];
    }

    /** `route_key`; `succeeds` says whether the pane accepted the key. */
    method RouteKey(key: KeyEvent, succeeds: bool) returns (ok: bool)
      modifies this
      ensures calls == old(calls) + [KeyRouted(key)]
      ensures ok == succeeds
    {
      calls := calls + [KeyRouted(key)];
      ok := succeeds;
    }

    method SendInput(text: string, succeeds: bool) returns (ok: bool)
      modifies this
      ensures calls == old(calls) + [InputSent(text)]
      ensures ok == succeeds
    {
      calls := calls + [InputSent(text)];
      ok := succeeds;
    }
  }
}
