/** The credit transactions and the reservation as the service performs them, in place. */
module CreditMeter {
  import opened Meter

  class Credits {
    var open: bool
    var balance: int
    var month: nat
    var rows: seq<Entry>

    ghost function Now(): Account
      reads this
    {
      Account(open, balance, month, rows)
    }

    constructor ()
      ensures Now() == NoBooks.account
    {
      open, balance, month, rows := false, 0, 0, [];
    }

    method Restore(o: bool, b: int, m: nat, r: seq<Entry>)
      modifies this
      ensures Now() == Account(o, b, m, r)
    {
      open, balance, month, rows := o, b, m, r;
    }

    /** The transaction is rolled back when `works` is false. */
    method EnsureMonthlyGrant(thisMonth: nat, works: bool)
      modifies this
      ensures Now() == if works then Granted(old(Now()), thisMonth) else old(Now())
    {
      var o, b, m, r := open, balance, month, rows;
      if !open {
        open, balance, month := true, GRANT, thisMonth;
        rows := rows + [Entry(thisMonth, MonthlyGrant, GRANT, GRANT)];
      } else if month != thisMonth && balance < GRANT {
        var delta := GRANT - balance;
        balance, month := GRANT, thisMonth;
        rows := rows + [Entry(thisMonth, MonthlyGrant, delta, GRANT)];
      } else if month != thisMonth {
        month := thisMonth;
      }
      if !works { Restore(o, b, m, r); }
    }

    method Charge(live: bool, name: string, mcr: int, thisMonth: nat, luck: Luck) returns (ok: bool)
      modifies this
      ensures Charged(Now(), ok) == Meter.Charge(old(Now()), live, name, mcr, thisMonth, luck)
    {
      if !live || mcr == 0 { return true; }
      if mcr < 0 { return false; }
      EnsureMonthlyGrant(thisMonth, luck.grant);
      if !luck.grant { return false; }
      if balance < mcr { return false; }
      var o, b, m, r := open, balance, month, rows;
      balance := balance - mcr;
      rows := rows + [Entry(thisMonth, Use(name), -mcr, balance)];
      if !luck.charge { Restore(o, b, m, r); }
      ok := luck.charge;
    }

    method RefundCharge(live: bool, name: string, mcr: int, thisMonth: nat, works: bool)
      modifies this
      ensures Now() == Meter.RefundCharge(old(Now()), live, name, mcr, thisMonth, works)
    {
      if !live || mcr <= 0 || !open { return; }
      var o, b, m, r := open, balance, month, rows;
      balance := balance + mcr;
      rows := rows + [Entry(thisMonth, RefundOf(name), mcr, balance)];
      if !works { Restore(o, b, m, r); }
    }
  }

  class ChargeReservation {
    const credits: Credits
    const live: bool
    const name: string
    const mcr: int
    var active: bool

    ghost function Now(): Hold
      reads this
    {
      Hold(live, name, mcr, active)
    }

    constructor (credits: Credits, live: bool, name: string, mcr: int)
      ensures this.credits == credits && Now() == Hold(live, name, mcr, live && mcr > 0)
    {
      this.credits, this.live, this.name, this.mcr := credits, live, name, mcr;
      active := live && mcr > 0;
    }

    method Commit(month: nat)
      modifies this
      ensures Settled(credits.Now(), Now()) == Settle(old(credits.Now()), old(Now()), Settlement.Commit, month)
    {
      if active { active := false; }
    }

    method CommitUsed(used: int, month: nat, works: bool)
      modifies this, credits
      ensures Settled(credits.Now(), Now()) == Settle(old(credits.Now()), old(Now()), Settlement.CommitUsed(used, works), month)
    {
      if !active { return; }
      var kept := used;
      if kept < 0 { kept := 0; }
      if kept > mcr { kept := mcr; }
      active := false;
      var refund := mcr - kept;
      if refund > 0 { credits.RefundCharge(live, name, refund, month, works); }
    }

    method Refund(month: nat, works: bool)
      modifies this, credits
      ensures Settled(credits.Now(), Now()) == Settle(old(credits.Now()), old(Now()), Settlement.Refund(works), month)
    {
      if !active { return; }
      active := false;
      credits.RefundCharge(live, name, mcr, month, works);
    }
  }

  method ReserveCharge(credits: Credits, live: bool, name: string, mcr: int, month: nat, luck: Luck)
    returns (r: ChargeReservation?)
    modifies credits
    ensures var c := Charge(old(credits.Now()), live, name, mcr, month, luck);
            && credits.Now() == c.account && (r != null <==> c.ok)
            && (r != null ==> fresh(r) && r.credits == credits && r.Now() == Hold(live, name, mcr, live && mcr > 0))
  {
    var ok := credits.Charge(live, name, mcr, month, luck);
    if !ok { return null; }
    r := new ChargeReservation(credits, live, name, mcr);
  }
}
