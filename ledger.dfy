/** The bot's handlers as methods on one object that owns both tables. Each method reads,
    checks and writes the tables in the order the handler does, returning early on each
    refusal, and is proved to end in the state and reply that the Handlers functions give. */
module Bot {
  import opened Tables
  import ReferralCode
  import Board = Leaderboard
  import Handlers

  class Ledger {
    /** user_profiles, keyed by telegram id. */
    var profiles: map<int, Profile>
    /** referral_links, in insertion order. */
    var links: seq<LinkEvent>

    function State(): Store
      reads this
    {
      Store(profiles, links)
    }

    ghost predicate Valid()
      reads this
    {
      WellFormed(State())
    }

    constructor ()
      ensures Valid()
      ensures profiles == map[] && links == []
    {
      profiles := map[];
      links := [];
    }

    /** The /start command. */
    method Start(telegramId: int, chatUsername: Option<string>, args: seq<string>,
                 draws: seq<nat>, newId: int, scan: seq<int>) returns (o: Handlers.Outcome)
      requires Valid()
      requires ReferralCode.ValidDraws(draws)
      requires FreshId(profiles, newId)
      requires IsScan(scan, profiles)
      modifies this
      ensures Valid()
      ensures (State(), o) == Handlers.Start(old(State()), telegramId, chatUsername, args, draws, newId, scan)
    {
      Handlers.StartPreservesWellFormed(State(), telegramId, chatUsername, args, draws, newId, scan);
      var name := Handlers.DisplayName(chatUsername);
      if telegramId in profiles {
        o := Handlers.Welcome(name, profiles[telegramId].referralCode);
        return;
      }
      var code := ReferralCode.Generate(draws);
      var referredBy := if |args| > 0 then Some(args[0]) else None;
      if |args| > 0 && args[0] != "" {
        var found := FindByCode(scan, profiles, args[0]);
        if found.None? {
          o := Handlers.InvalidReferral;
          return;
        }
        var referrer := profiles[scan[found.value]];
        profiles := profiles[referrer.telegramId := referrer.(
          referrals := referrer.referrals + 1,
          points := referrer.points + Handlers.ReferralBonus)];
      }
      profiles := profiles[telegramId := Profile(newId, telegramId, name, code, referredBy,
                                                 InitialReferrals, InitialPoints)];
      o := Handlers.Welcome(name, code);
    }

    /** The /sendlink command; the reply carries the recipients chosen for delivery. */
    method SendLink(telegramId: int, args: seq<string>, today: int, now: int, scan: seq<int>)
      returns (o: Handlers.Outcome)
      requires Valid()
      requires today <= now
      requires IsScan(scan, profiles)
      modifies this
      ensures Valid()
      ensures (State(), o) == Handlers.SendLink(old(State()), telegramId, args, today, now, scan)
    {
      Handlers.SendLinkPreservesWellFormed(State(), telegramId, args, today, now, scan);
      if |args| == 0 {
        o := Handlers.Usage;
        return;
      }
      var link := args[0];
      if telegramId !in profiles {
        o := Handlers.NotRegistered;
        return;
      }
      var userId := profiles[telegramId].id;
      if Handlers.SentSince(links, userId, today) {
        o := Handlers.AlreadySentToday;
        return;
      }
      links := links + [LinkEvent(userId, link, now)];
      var audience := SelectAudience(scan, telegramId, Handlers.AudienceLimit);
      if audience == [] {
        o := Handlers.NoUsers;
        return;
      }
      o := Handlers.Shared(audience);
    }

    /** The /redeem command. */
    method Redeem(telegramId: int) returns (o: Handlers.Outcome)
      requires Valid()
      modifies this
      ensures Valid()
      ensures (State(), o) == Handlers.Redeem(old(State()), telegramId)
    {
      Handlers.RedeemPreservesWellFormed(State(), telegramId);
      if telegramId !in profiles {
        o := Handlers.NotRegistered;
        return;
      }
      var user := profiles[telegramId];
      if user.points < Handlers.RewardCost {
        o := Handlers.TooFewPoints;
        return;
      }
      profiles := profiles[telegramId := user.(points := user.points - Handlers.RewardCost)];
      o := Handlers.Redeemed;
    }

    /** The rows the /leaderboard command lists, given the store's row order. */
    method Leaderboard(scan: seq<int>) returns (top: seq<Profile>)
      requires IsScan(scan, profiles)
      ensures |top| == Min(Board.Limit, |profiles|)
      ensures Board.Descending(top)
      ensures multiset(top) <= multiset(RowsInScanOrder(profiles, scan))
      ensures forall p :: p in top ==> p in profiles.Values
      ensures forall t, q :: t in profiles && profiles[t] !in top && q in top ==>
                q.referrals >= profiles[t].referrals
    {
      ScanCoversTable(scan, profiles);
      var rows := RowsInScanOrder(profiles, scan);
      top := Board.Top(rows);
      forall p | p in top ensures p in profiles.Values {
        assert p in multiset(rows);
        var i :| 0 <= i < |rows| && rows[i] == p;
        assert profiles[scan[i]] == p;
      }
      forall t, q | t in profiles && profiles[t] !in top && q in top
        ensures q.referrals >= profiles[t].referrals
      {
        var i :| 0 <= i < |scan| && scan[i] == t;
        assert rows[i] == profiles[t];
        Board.TopSelectsHighest(rows, q, profiles[t]);
      }
    }
  }
}
