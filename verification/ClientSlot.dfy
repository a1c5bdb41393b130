/** The connMu-guarded part of Client, updated in place. */
module ClientSlot {
  import opened Common
  import Lifecycle

  /** Each method is one section that holds connMu; contexts and channels are named
      by numbers, and the caller passes fresh ones. */
  class ConnState {
    var connected: bool
    var cancel: Option<nat>
    var done: Option<nat>

    function View(): Lifecycle.Slot
      reads this
    {
      Lifecycle.Slot(connected, cancel, done)
    }

    constructor ()
      ensures View() == Lifecycle.Init.slot
    {
      connected, cancel, done := false, None, None;
    }

    /** Connect, second section: refused while connected. */
    method Commit(ctx: nat, ch: nat) returns (ok: bool)
      modifies this
      ensures ok == !old(connected)
      ensures View() == Lifecycle.CommitSlot(old(View()), ctx, ch)
    {
      if connected {
        return false;
      }
      cancel := Some(ctx);
      done := Some(ch);
      connected := true;
      return true;
    }

    /** run, after poller.Run has returned. */
    method ClearConnected()
      modifies this
      ensures View() == Lifecycle.EndSlot(old(View()))
    {
      connected := false;
    }

    /** run, reconnecting: refused when the slot no longer holds the run's own done. */
    method Reconnect(mine: nat, ctx: nat, ch: nat) returns (ok: bool)
      modifies this
      ensures ok == (old(done) == Some(mine))
      ensures View() == Lifecycle.ReconnectSlot(old(View()), mine, ctx, ch)
    {
      if done != Some(mine) {
        return false;
      }
      cancel := Some(ctx);
      done := Some(ch);
      connected := true;
      return true;
    }

    /** Disconnect: empties the slot and leaves connected alone. */
    method Take() returns (c: Option<nat>, d: Option<nat>)
      modifies this
      ensures c == old(cancel) && d == old(done)
      ensures View() == Lifecycle.TakeSlot(old(View()))
    {
      c, d := cancel, done;
      cancel, done := None, None;
    }
  }
}
