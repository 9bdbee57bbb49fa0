/** Money movements: each checks a guard, updates one wallet and appends one ledger entry. */
module Wallets {
  import opened Model
  import opened Rules

  /** Saves a wallet and records the movement under ledger id `e`. */
  function Record(db: Tables, g: nat, w: Wallet, kind: EntryKind, amount: int, ref: Ref, e: nat): Tables {
    db.(wallets := db.wallets[g := w], ledger := db.ledger[e := Entry(g, kind, amount, ref)])
  }

  function ReserveTx(db: Tables, g: nat, amount: int, ref: Ref, e: nat): Result<Tables> {
    if g !in db.wallets then Err(WalletMissing) else
      var w := db.wallets[g];
      :- EnsureCanReserve(w.total, w.reserved, amount);
      Ok(Record(db, g, w.(reserved := w.reserved + amount), Reserved, amount, ref, e))
  }

  function ReleaseTx(db: Tables, g: nat, amount: int, ref: Ref, e: nat): Result<Tables> {
    if g !in db.wallets then Err(WalletMissing) else
      var w := db.wallets[g];
      :- EnsureCanRelease(w.reserved, amount);
      Ok(Record(db, g, w.(reserved := w.reserved - amount), Freed, amount, ref, e))
  }

  function DebitTx(db: Tables, g: nat, amount: int, ref: Ref, e: nat): Result<Tables> {
    if g !in db.wallets then Err(WalletMissing) else
      var w := db.wallets[g];
      :- EnsureSufficientAvailable(w.total, w.reserved, amount);
      Ok(Record(db, g, w.(total := w.total - amount), Debited, amount, ref, e))
  }

  function CreditTx(db: Tables, g: nat, amount: int, ref: Ref, e: nat): Result<Tables> {
    if g !in db.wallets then Err(WalletMissing) else
      var w := db.wallets[g];
      :- EnsurePositive(amount);
      Ok(Record(db, g, w.(total := w.total + amount), Credited, amount, ref, e))
  }

  function SettleReservedTx(db: Tables, g: nat, amount: int, ref: Ref, e: nat): Result<Tables> {
    if g !in db.wallets then Err(WalletMissing) else
      var w := db.wallets[g];
      :- EnsureCanRelease(w.reserved, amount);
      Ok(Record(db, g, Wallet(w.total - amount, w.reserved - amount), Debited, amount, ref, e))
  }

  // ---- The five operations as one ----

  /** The guard and the new wallet of a movement. */
  function Change(kind: EntryKind, ref: Ref, w: Wallet, amount: int): Result<Wallet> {
    match kind
    case Reserved =>
      :- EnsureCanReserve(w.total, w.reserved, amount);
      Ok(w.(reserved := w.reserved + amount))
    case Freed =>
      :- EnsureCanRelease(w.reserved, amount);
      Ok(w.(reserved := w.reserved - amount))
    case Credited =>
      :- EnsurePositive(amount);
      Ok(w.(total := w.total + amount))
    case Debited =>
      if ref.AuctionRef? then
        :- EnsureCanRelease(w.reserved, amount);
        Ok(Wallet(w.total - amount, w.reserved - amount))
      else
        :- EnsureSufficientAvailable(w.total, w.reserved, amount);
        Ok(w.(total := w.total - amount))
  }

  /** The wallet operation of a movement. */
  function TxOf(db: Tables, g: nat, kind: EntryKind, amount: int, ref: Ref, e: nat): Result<Tables> {
    match kind
    case Reserved => ReserveTx(db, g, amount, ref, e)
    case Freed => ReleaseTx(db, g, amount, ref, e)
    case Credited => CreditTx(db, g, amount, ref, e)
    case Debited => if ref.AuctionRef? then SettleReservedTx(db, g, amount, ref, e) else DebitTx(db, g, amount, ref, e)
  }

  /** A guarded change of a wallet, saved and recorded, is what the wallet operation does. */
  lemma ChangeIsTx(db: Tables, g: nat, kind: EntryKind, amount: int, ref: Ref, e: nat)
    ensures TxOf(db, g, kind, amount, ref, e) ==
            if g !in db.wallets then Err(WalletMissing)
            else match Change(kind, ref, db.wallets[g], amount)
                 case Err(x) => Err(x)
                 case Ok(w) => Ok(Record(db, g, w, kind, amount, ref, e))
  {
  }
}
