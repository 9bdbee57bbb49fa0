/** One description of what each committed transaction did, from which its consequences are proved. */
module Effects {
  import opened Model
  import opened Transitions
  import opened Invariants
  import PlaceBidProofs
  import SettleProofs
  import BuyProofs
  import OfferProofs

  function NewItem(owner: nat, name: string, tier: Tier, stock: int): Item {
    Item(name, tier, owner, Available, if tier == Legendary then 1 else stock)
  }

  ghost predicate Effect(cfg: Config, db: Tables, ev: Event, db': Tables) {
    match ev.req
    case CreateItem(owner, name, tier, stock) =>
      tier.Some? && OfferProofs.Created(db, ev.env.row, NewItem(owner, name, tier.value, stock), db')
    case CreateListing(seller, item, price) =>
      OfferProofs.Listed(db, ev.env.row, Listing(item, seller, price, Open, None), db')
    case CreateAuction(seller, item) => OfferProofs.Opened(cfg, db, seller, item, ev.env, db')
    case CancelBid(_, b, _) => OfferProofs.Cancelled(db, b, db')
    case Buy(buyer, l) =>
      && BuyProofs.Rows(db, buyer, l, ev.env, db')
      && BuyProofs.Day(db, buyer, l, ev.env, db')
      && BuyProofs.Moves(db, buyer, l, ev.env, db')
    case PlaceBid(a, bidder, amount) =>
      && PlaceBidProofs.Rows(cfg, db, a, bidder, amount, ev.env, db')
      && PlaceBidProofs.Moves(db, a, bidder, amount, ev.env, db')
    case Settle(a) =>
      && a in db.auctions
      && if Due(db.auctions[a], ev.env.t0)
         then SettleProofs.Rows(db, a, ev.env, db') && SettleProofs.Moves(db, a, ev.env, db')
         else db' == db
  }

  lemma EffectOf(w: World, db: Tables, ev: Event, db': Tables)
    requires BidsOk(db) && EnvOk(db, ev.req, ev.env) && Apply(db, w.cfg, ev.req, ev.env) == Ok(db')
    ensures Effect(w.cfg, db, ev, db')
  {
    match ev.req {
      case CreateItem(owner, name, tier, stock) => OfferProofs.CreatedShape(db, owner, name, tier, stock, ev.env, db');
      case CreateListing(seller, item, price) => OfferProofs.ListedShape(db, seller, item, price, ev.env, db');
      case CreateAuction(seller, item) => OfferProofs.OpenedShape(w.cfg, db, seller, item, ev.env, db');
      case CancelBid(a, b, bidder) => OfferProofs.CancelMovesNoMoney(db, a, b, bidder, ev.env, db');
      case Buy(buyer, l) => BuyProofs.Shape(db, buyer, l, ev.env, db');
      case PlaceBid(a, bidder, amount) => PlaceBidProofs.Shape(w, db, a, bidder, amount, ev.env, db');
      case Settle(a) => SettleEffect(w, db, a, ev.env, db');
    }
  }

  lemma SettleEffect(w: World, db: Tables, a: nat, env: Env, db': Tables)
    requires EnvOk(db, Settle(a), env) && Transitions.Settle(db, a, env) == Ok(db')
    ensures Effect(w.cfg, db, Event(Settle(a), env), db')
  {
    if a in db.auctions && Due(db.auctions[a], env.t0) {
      SettleProofs.Shape(db, a, env, db');
    }
  }

  lemma EffectKeeps(w: World, db: Tables, ev: Event, db': Tables)
    requires Inv(w, db) && Effect(w.cfg, db, ev, db')
    ensures Inv(w, db')
  {
    match ev.req {
      case CreateItem(owner, name, tier, stock) =>
        OfferProofs.CreatedKeeps(w, db, ev.env.row, NewItem(owner, name, tier.value, stock), db');
      case CreateListing(seller, item, price) =>
        OfferProofs.ListedKeeps(w, db, ev.env.row, Listing(item, seller, price, Open, None), db');
      case CreateAuction(seller, item) => OfferProofs.OpenedKeeps(w, db, seller, item, ev.env, db');
      case CancelBid(_, b, _) => OfferProofs.CancelledKeeps(w, db, b, db');
      case Buy(buyer, l) => BuyProofs.Keeps(w, db, buyer, l, ev.env, db');
      case PlaceBid(a, bidder, amount) => PlaceBidProofs.Keeps(w, db, a, bidder, amount, ev.env, db');
      case Settle(a) =>
        if Due(db.auctions[a], ev.env.t0) {
          SettleProofs.Keeps(w, db, a, ev.env, db');
        }
    }
  }
}
