/** Rolling admission budgets.  A reservation is checked only against the window that ends
    at the instant of its check, and stamped no earlier; yet no window anywhere on the time
    line is ever overdrawn, in whatever order the stamps come. */
module RollingWindow {

  datatype Entry<T> = Entry(at: int, units: nat, tag: T)

  /** Units reserved after `since` by entries the budget covers. */
  function Used<T>(log: seq<Entry<T>>, covers: T -> bool, since: int): nat {
    if log == [] then 0
    else
      var last := log[|log| - 1];
      Used(log[..|log| - 1], covers, since) + (if covers(last.tag) && last.at > since then last.units else 0)
  }

  /** Units reserved within (from, to]. */
  ghost function Within<T>(log: seq<Entry<T>>, covers: T -> bool, from: int, to: int): nat {
    if log == [] then 0
    else
      var last := log[|log| - 1];
      Within(log[..|log| - 1], covers, from, to) + (if covers(last.tag) && from < last.at <= to then last.units else 0)
  }

  /** Every covered entry fitted the window that ended at its own instant. */
  ghost predicate Admitted<T>(log: seq<Entry<T>>, covers: T -> bool, width: int, limit: int) {
    forall j :: 0 <= j < |log| && covers(log[j].tag) ==> Used(log[..j + 1], covers, log[j].at - width) <= limit
  }

  lemma {:induction false} UsedMonotone<T>(log: seq<Entry<T>>, covers: T -> bool, early: int, late: int)
    requires early <= late
    ensures Used(log, covers, late) <= Used(log, covers, early)
  {
    if log != [] { UsedMonotone(log[..|log| - 1], covers, early, late); }
  }

  lemma {:induction false} WithinIsUsed<T>(log: seq<Entry<T>>, covers: T -> bool, from: int, to: int)
    ensures Within(log, covers, from, to) <= Used(log, covers, from)
  {
    if log != [] { WithinIsUsed(log[..|log| - 1], covers, from, to); }
  }

  /** What a check counts is exactly the window that ends at its instant, once every stamp is
      in the past. */
  lemma {:induction false} UsedIsWindow<T>(log: seq<Entry<T>>, covers: T -> bool, from: int, to: int)
    requires forall j | 0 <= j < |log| :: log[j].at <= to
    ensures Used(log, covers, from) == Within(log, covers, from, to)
  {
    if log != [] {
      var front := log[..|log| - 1];
      forall j | 0 <= j < |front| ensures front[j].at <= to { assert front[j] == log[j]; }
      UsedIsWindow(front, covers, from, to);
    }
  }

  lemma AdmittedPrefix<T>(log: seq<Entry<T>>, covers: T -> bool, width: int, limit: int)
    requires Admitted(log, covers, width, limit) && log != []
    ensures Admitted(log[..|log| - 1], covers, width, limit)
  {
    var front := log[..|log| - 1];
    forall j | 0 <= j < |front| && covers(front[j].tag) ensures Used(front[..j + 1], covers, front[j].at - width) <= limit {
      assert front[..j + 1] == log[..j + 1];
    }
  }

  /** No window of the given width, ending at any instant, holds more than the limit. */
  lemma {:induction false} NoWindowOverdrawn<T>(log: seq<Entry<T>>, covers: T -> bool, width: int, limit: int, t: int)
    requires Admitted(log, covers, width, limit) && limit >= 0
    ensures Within(log, covers, t - width, t) <= limit
  {
    if log != [] {
      var last := log[|log| - 1];
      if covers(last.tag) && t - width < last.at <= t {
        WithinIsUsed(log, covers, t - width, t);
        UsedMonotone(log, covers, last.at - width, t - width);
        assert log[..|log|] == log;
      } else {
        AdmittedPrefix(log, covers, width, limit);
        NoWindowOverdrawn(log[..|log| - 1], covers, width, limit, t);
      }
    }
  }

  /** Appending a reservation that was checked at `now` and stamped no earlier. */
  lemma AppendAdmitted<T>(log: seq<Entry<T>>, e: Entry<T>, covers: T -> bool, width: int, limit: int, now: int)
    requires Admitted(log, covers, width, limit)
    requires now <= e.at
    requires covers(e.tag) ==> Used(log, covers, now - width) + e.units <= limit
    ensures Admitted(log + [e], covers, width, limit)
  {
    var more := log + [e];
    forall j | 0 <= j < |more| && covers(more[j].tag) ensures Used(more[..j + 1], covers, more[j].at - width) <= limit {
      if j < |log| {
        assert more[..j + 1] == log[..j + 1];
      } else {
        assert more[..j + 1] == more && more[..|more| - 1] == log;
        UsedMonotone(log, covers, now - width, e.at - width);
      }
    }
  }
}
