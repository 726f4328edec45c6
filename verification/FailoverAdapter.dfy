/** The failover adapter as a mutable object.  One chat is the three stretches
    of code between its suspensions: `Chat`, `PrimaryAnswered`, and
    `SecondaryAnswered` for a request the backup serves. */
module FailoverAdapters {
  import opened Basics
  import opened Failover

  class FailoverAdapter {
    const holdS: nat
    const recoverAfter: nat
    const requestScoped: bool
    const dailyMax: nat
    var fallbackUntil: nat
    var primaryStreak: nat
    var budgetDay: Option<int>
    var budgetUsed: nat

    constructor (hold: int, recoverAfter: int, requestScoped: bool, dailyMax: int)
      ensures View() == Breaker(Policy(requestScoped, Max(SECOND, hold), Max(1, recoverAfter), Max(0, dailyMax)), 0, 0, 0, None)
    {
      holdS, this.recoverAfter, this.requestScoped, this.dailyMax := Max(SECOND, hold), Max(1, recoverAfter), requestScoped, Max(0, dailyMax);
      fallbackUntil, primaryStreak, budgetDay, budgetUsed := 0, 0, None, 0;
    }

    function View(): Breaker
      reads this
    {
      Breaker(Policy(requestScoped, holdS, recoverAfter, dailyMax), fallbackUntil, primaryStreak, budgetUsed, budgetDay)
    }

    method BudgetBlocked(day: int) returns (blocked: bool)
      modifies this
      ensures View() == Today(old(View()), day) && blocked == Blocked(old(View()), day)
    {
      if dailyMax == 0 { return false; }
      if budgetDay != Some(day) {
        budgetDay := Some(day);
        budgetUsed := 0;
      }
      blocked := budgetUsed >= dailyMax;
    }

    method NoteBackupServed(day: int)
      modifies this
      ensures View() == Charge(old(View()), day)
    {
      if dailyMax == 0 { return; }
      if budgetDay != Some(day) {
        budgetDay := Some(day);
        budgetUsed := 0;
      }
      budgetUsed := budgetUsed + 1;
    }

    method Trip(now: nat)
      modifies this
      ensures View() == Failover.Trip(old(View()), now)
    {
      if !requestScoped { fallbackUntil := now + holdS; }
      primaryStreak := 0;
    }

    method Chat(now: nat, day: int) returns (route: Route)
      modifies this
      ensures (View(), route) == OnArrival(old(View()), now, day)
    {
      if now < fallbackUntil {
        var blocked := BudgetBlocked(day);
        return if blocked then BudgetRefusal else ToBackup;
      }
      return ToPrimary;
    }

    method PrimaryAnswered(answer: PrimaryAnswer, now: nat, day: int) returns (route: Route)
      modifies this
      ensures (View(), route) == OnPrimary(old(View()), answer, now, day)
    {
      match answer
      case BadRequest => return PrimaryRaised;
      case Raised =>
        var blocked := BudgetBlocked(day);
        if blocked { return PrimaryRaised; }
        Trip(now);
        return ToBackup;
      case Status(code) =>
        if code >= 400 {
          if PassedThrough(code) { return PrimaryRelayed; }
          var blocked := BudgetBlocked(day);
          if blocked { return PrimaryRelayed; }
          Trip(now);
          return ToBackup;
        }
        primaryStreak := primaryStreak + 1;
        if fallbackUntil != 0 && primaryStreak >= recoverAfter {
          fallbackUntil := 0;
          primaryStreak := 0;
        }
        return PrimaryRelayed;
    }

    method SecondaryAnswered(answer: BackupAnswer, day: int) returns (route: Route)
      modifies this
      ensures (View(), route) == OnBackup(old(View()), answer, day)
    {
      match answer
      case Unreachable => return BothDown;
      case ErrorRelay =>
        fallbackUntil := 0;
        return BackupRefusal;
      case Served =>
        NoteBackupServed(day);
        return BackupRelayed;
    }
  }
}
