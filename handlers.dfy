/** The command handlers start, send_link and redeem as functions from the store before the
    command to the store after it and the reply the user sees. Each handler is one atomic
    read-check-write step; whatever the real handler reads from the clock, the random source
    or the store's row order is a parameter. */
module Handlers {
  import opened Tables
  import ReferralCode

  /** Points a referrer earns per new account. */
  const ReferralBonus: int := 10
  /** Points a reward costs; also the least balance that may redeem one. */
  const RewardCost: int := 50
  /** Most recipients one send_link reaches. */
  const AudienceLimit: nat := 5

  /** The reply of a handler, one case per message it can send. */
  datatype Outcome =
    | Welcome(username: string, code: string)
    | InvalidReferral
    | Usage
    | NotRegistered
    | AlreadySentToday
    | NoUsers
    | Shared(audience: seq<int>)
    | TooFewPoints
    | Redeemed

  /** `chat.username or "Unknown"`: a missing or empty username reads as "Unknown". */
  function DisplayName(chatUsername: Option<string>): (name: string)
    ensures name != ""
    ensures name == "Unknown" || chatUsername == Some(name)
    ensures chatUsername.Some? && chatUsername.value != "" ==> name == chatUsername.value
  {
    if chatUsername.Some? && chatUsername.value != "" then chatUsername.value else "Unknown"
  }

  /** The referrer's row after one more account names its code. */
  function Credit(p: Profile): Profile
  {
    p.(referrals := p.referrals + 1, points := p.points + ReferralBonus)
  }

  /** The row inserted for a new account. `referred_by` is the first argument whenever there
      is one, and null otherwise. */
  function Joined(newId: int, telegramId: int, name: string, code: string, args: seq<string>): Profile
  {
    Profile(newId, telegramId, name, code, if |args| > 0 then Some(args[0]) else None,
            InitialReferrals, InitialPoints)
  }

  /** start: register the caller once, crediting the referrer named by the first argument. */
  function Start(s: Store, telegramId: int, chatUsername: Option<string>, args: seq<string>,
                 draws: seq<nat>, newId: int, scan: seq<int>): (r: (Store, Outcome))
    requires ReferralCode.ValidDraws(draws)
    ensures r.1.Welcome? || r.1 == InvalidReferral
    ensures r.1 == InvalidReferral ==> r.0 == s
    ensures r.0.links == s.links
    ensures r.0.profiles.Keys == if r.1.Welcome? then s.profiles.Keys + {telegramId} else s.profiles.Keys
    ensures r.1.Welcome? ==> r.0.profiles[telegramId].referralCode == r.1.code
    ensures r.1.Welcome? && telegramId !in s.profiles ==> ReferralCode.IsReferralCode(r.1.code)
    ensures r.1.Welcome? && telegramId !in s.profiles ==> r.1.code == ReferralCode.Generate(draws)
  {
    var name := DisplayName(chatUsername);
    if telegramId in s.profiles then
      (s, Welcome(name, s.profiles[telegramId].referralCode))
    else
      var code := ReferralCode.Generate(draws);
      var joined := Joined(newId, telegramId, name, code, args);
      if |args| > 0 && args[0] != "" then
        match FindByCode(scan, s.profiles, args[0])
        case None => (s, InvalidReferral)
        case Some(i) =>
          var referrer := scan[i];
          (s.(profiles := s.profiles[referrer := Credit(s.profiles[referrer])][telegramId := joined]),
           Welcome(name, code))
      else
        (s.(profiles := s.profiles[telegramId := joined]), Welcome(name, code))
  }

  /** Some send by `userId` is recorded on day `today` or later. */
  predicate SentSince(links: seq<LinkEvent>, userId: int, today: int)
  {
    exists i :: 0 <= i < |links| && links[i].userId == userId && links[i].createdAt >= today
  }

  /** send_link: record one share per UTC day, then pick up to five other users. */
  function SendLink(s: Store, telegramId: int, args: seq<string>, today: int, now: int,
                    scan: seq<int>): (r: (Store, Outcome))
    ensures r.0.profiles == s.profiles
    ensures r.1 in {Usage, NotRegistered, AlreadySentToday, NoUsers} || r.1.Shared?
    ensures r.1 in {Usage, NotRegistered, AlreadySentToday} ==> r.0 == s
    ensures r.1 in {NoUsers} || r.1.Shared? ==>
              |r.0.links| == |s.links| + 1 && r.0.links[..|s.links|] == s.links
              && r.0.links[|s.links|].createdAt == now
    ensures r.1.Shared? ==>
              0 < |r.1.audience| <= AudienceLimit && telegramId !in r.1.audience
  {
    if |args| == 0 then (s, Usage)
    else if telegramId !in s.profiles then (s, NotRegistered)
    else
      var userId := s.profiles[telegramId].id;
      if SentSince(s.links, userId, today) then (s, AlreadySentToday)
      else
        var recorded := s.(links := s.links + [LinkEvent(userId, args[0], now)]);
        var audience := SelectAudience(scan, telegramId, AudienceLimit);
        if audience == [] then (recorded, NoUsers) else (recorded, Shared(audience))
  }

  /** redeem: spend RewardCost points on a reward. */
  function Redeem(s: Store, telegramId: int): (r: (Store, Outcome))
    ensures r.1 in {NotRegistered, TooFewPoints, Redeemed}
    ensures r.1 != Redeemed ==> r.0 == s
    ensures r.0.links == s.links && r.0.profiles.Keys == s.profiles.Keys
    ensures forall u :: u in s.profiles && u != telegramId ==> r.0.profiles[u] == s.profiles[u]
    ensures r.1 == Redeemed ==>
              telegramId in s.profiles && RewardCost <= s.profiles[telegramId].points
              && r.0.profiles[telegramId].points == s.profiles[telegramId].points - RewardCost
  {
    if telegramId !in s.profiles then (s, NotRegistered)
    else
      var p := s.profiles[telegramId];
      if p.points < RewardCost then (s, TooFewPoints)
      else (s.(profiles := s.profiles[telegramId := p.(points := p.points - RewardCost)]), Redeemed)
  }

  // ---------------------------------------------------------------------------------------
  // start

  /** A registered caller changes nothing and is shown the code already on record, whatever
      the arguments, draws, row id or row order. */
  lemma StartRegistered(s: Store, telegramId: int, chatUsername: Option<string>, args: seq<string>,
                        draws: seq<nat>, newId: int, scan: seq<int>)
    requires ReferralCode.ValidDraws(draws)
    requires telegramId in s.profiles
    ensures Start(s, telegramId, chatUsername, args, draws, newId, scan)
         == (s, Welcome(DisplayName(chatUsername), s.profiles[telegramId].referralCode))
  {
  }

  /** Registering twice: the second start changes nothing and repeats the first one's code. */
  lemma {:induction false} StartIdempotent(s: Store, telegramId: int,
                                           chatUsername: Option<string>, args: seq<string>,
                                           draws: seq<nat>, newId: int, scan: seq<int>,
                                           chatUsername': Option<string>, args': seq<string>,
                                           draws': seq<nat>, newId': int, scan': seq<int>)
    requires ReferralCode.ValidDraws(draws) && ReferralCode.ValidDraws(draws')
    requires Start(s, telegramId, chatUsername, args, draws, newId, scan).1.Welcome?
    ensures var (s1, o1) := Start(s, telegramId, chatUsername, args, draws, newId, scan);
            Start(s1, telegramId, chatUsername', args', draws', newId', scan')
              == (s1, Welcome(DisplayName(chatUsername'), o1.code))
  {
    var (s1, o1) := Start(s, telegramId, chatUsername, args, draws, newId, scan);
    assert telegramId in s1.profiles && s1.profiles[telegramId].referralCode == o1.code;
  }

  /** A non-empty referral code no row carries is rejected, and nothing is written; and this
      is the only way start is rejected. */
  lemma {:induction false} StartInvalidReferral(s: Store, telegramId: int,
                                                chatUsername: Option<string>, args: seq<string>,
                                                draws: seq<nat>, newId: int, scan: seq<int>)
    requires ReferralCode.ValidDraws(draws)
    requires IsScan(scan, s.profiles)
    ensures var (s', o) := Start(s, telegramId, chatUsername, args, draws, newId, scan);
            && (o == InvalidReferral <==>
                  telegramId !in s.profiles && |args| > 0 && args[0] != ""
                  && !CodeInUse(s.profiles, args[0]))
            && (o == InvalidReferral ==> s' == s)
  {
    if telegramId !in s.profiles && |args| > 0 && args[0] != "" {
      var found := FindByCode(scan, s.profiles, args[0]);
      if CodeInUse(s.profiles, args[0]) {
        var t :| t in s.profiles && HasCode(s.profiles, t, args[0]);
        assert t in scan;
        assert found.Some?;
      }
    }
  }

  /** A valid referral code credits exactly one row carrying it with one referral and
      ReferralBonus points, leaves every other row as it was, and adds exactly the new row,
      whose referred_by is that code and whose code is eight letters or digits. */
  lemma {:induction false} StartCreditsReferrer(s: Store, telegramId: int,
                                                chatUsername: Option<string>, args: seq<string>,
                                                draws: seq<nat>, newId: int, scan: seq<int>)
    requires ReferralCode.ValidDraws(draws)
    requires IsScan(scan, s.profiles)
    requires telegramId !in s.profiles
    requires |args| > 0 && args[0] != "" && CodeInUse(s.profiles, args[0])
    ensures var (s', o) := Start(s, telegramId, chatUsername, args, draws, newId, scan);
            && o == Welcome(DisplayName(chatUsername), ReferralCode.Generate(draws))
            && ReferralCode.IsReferralCode(o.code)
            && s'.links == s.links
            && s'.profiles.Keys == s.profiles.Keys + {telegramId}
            && s'.profiles[telegramId] == Joined(newId, telegramId, DisplayName(chatUsername), o.code, args)
            && s'.profiles[telegramId].referredBy == Some(args[0])
            && (exists r :: && HasCode(s.profiles, r, args[0])
                            && s'.profiles[r].referrals == s.profiles[r].referrals + 1
                            && s'.profiles[r].points == s.profiles[r].points + ReferralBonus
                            && s'.profiles[r] == Credit(s.profiles[r])
                            && (forall u :: u in s.profiles && u != r ==> s'.profiles[u] == s.profiles[u]))
  {
    StartInvalidReferral(s, telegramId, chatUsername, args, draws, newId, scan);
    var i := FindByCode(scan, s.profiles, args[0]).value;
    var r := scan[i];
    var s' := Start(s, telegramId, chatUsername, args, draws, newId, scan).0;
    assert HasCode(s.profiles, r, args[0]);
    assert s'.profiles[r] == Credit(s.profiles[r]);
  }

  /** Without a referral code the only change is the new row, with the default counters. */
  lemma StartWithoutReferral(s: Store, telegramId: int, chatUsername: Option<string>,
                             args: seq<string>, draws: seq<nat>, newId: int, scan: seq<int>)
    requires ReferralCode.ValidDraws(draws)
    requires telegramId !in s.profiles
    requires |args| == 0 || args[0] == ""
    ensures var (s', o) := Start(s, telegramId, chatUsername, args, draws, newId, scan);
            && o.Welcome? && ReferralCode.IsReferralCode(o.code)
            && s'.links == s.links
            && s'.profiles == s.profiles[telegramId := s'.profiles[telegramId]]
            && s'.profiles[telegramId].referrals == 0 && s'.profiles[telegramId].points == 0
            && (|args| == 0 ==> s'.profiles[telegramId].referredBy == None)
            && (|args| > 0 ==> s'.profiles[telegramId].referredBy == Some(""))
  {
  }

  /** start keeps the store well formed, given a fresh row id. */
  lemma {:induction false} StartPreservesWellFormed(s: Store, telegramId: int,
                                                    chatUsername: Option<string>, args: seq<string>,
                                                    draws: seq<nat>, newId: int, scan: seq<int>)
    requires ReferralCode.ValidDraws(draws)
    requires WellFormed(s) && FreshId(s.profiles, newId)
    ensures WellFormed(Start(s, telegramId, chatUsername, args, draws, newId, scan).0)
  {
    var s' := Start(s, telegramId, chatUsername, args, draws, newId, scan).0;
    forall t, u | t in s'.profiles && u in s'.profiles && t != u
      ensures s'.profiles[t].id != s'.profiles[u].id
    {
      assert t != telegramId ==> t in s.profiles && s'.profiles[t].id == s.profiles[t].id;
      assert u != telegramId ==> u in s.profiles && s'.profiles[u].id == s.profiles[u].id;
    }
  }

  // ---------------------------------------------------------------------------------------
  // send_link

  /** The outcomes of send_link, case by case: the three rejections write nothing, and an
      accepted send appends exactly one event for the sender and touches no profile. */
  lemma SendLinkOutcomes(s: Store, telegramId: int, args: seq<string>, today: int, now: int,
                         scan: seq<int>)
    ensures var (s', o) := SendLink(s, telegramId, args, today, now, scan);
            && (o == Usage <==> |args| == 0)
            && (o == NotRegistered <==> |args| > 0 && telegramId !in s.profiles)
            && (o == AlreadySentToday <==>
                  |args| > 0 && telegramId in s.profiles
                  && SentSince(s.links, s.profiles[telegramId].id, today))
            && (o in {Usage, NotRegistered, AlreadySentToday} ==> s' == s)
            && (o.NoUsers? || o.Shared? ==>
                  && s'.profiles == s.profiles
                  && s'.links == s.links + [LinkEvent(s.profiles[telegramId].id, args[0], now)])
  {
  }

  /** Once a send is accepted, every further send by the same user whose "today" is not
      after the recorded day is refused: one accepted send per UTC day. */
  lemma {:induction false} SecondSendSameDayRefused(s: Store, telegramId: int, args: seq<string>,
                                                    today: int, now: int, scan: seq<int>,
                                                    args': seq<string>, today': int, now': int,
                                                    scan': seq<int>)
    requires var o := SendLink(s, telegramId, args, today, now, scan).1; o.NoUsers? || o.Shared?
    requires |args'| > 0 && today' <= now
    ensures SendLink(SendLink(s, telegramId, args, today, now, scan).0,
                     telegramId, args', today', now', scan').1 == AlreadySentToday
  {
    var s' := SendLink(s, telegramId, args, today, now, scan).0;
    var last := |s'.links| - 1;
    assert s'.links[last].userId == s'.profiles[telegramId].id && s'.links[last].createdAt >= today';
  }

  /** An accepted send is dated after every earlier send by the same user, so the
      per-user days stay strictly increasing. */
  lemma {:induction false} SendLinkPreservesWellFormed(s: Store, telegramId: int,
                                                       args: seq<string>, today: int, now: int,
                                                       scan: seq<int>)
    requires WellFormed(s) && today <= now
    ensures WellFormed(SendLink(s, telegramId, args, today, now, scan).0)
  {
    var (s', o) := SendLink(s, telegramId, args, today, now, scan);
    if o.NoUsers? || o.Shared? {
      var userId := s.profiles[telegramId].id;
      forall i | 0 <= i < |s.links| && s.links[i].userId == userId
        ensures s.links[i].createdAt < now
      {
        assert !(s.links[i].createdAt >= today);
      }
      assert s'.links == s.links + [LinkEvent(userId, args[0], now)];
    }
  }

  /** The audience of an accepted send: registered users other than the sender, no one
      twice, as many as there are other users up to AudienceLimit; it is empty (NoUsers)
      exactly when the sender is the only registered user, and the day's send is used up
      all the same. */
  lemma {:induction false} SendLinkAudience(s: Store, telegramId: int, args: seq<string>,
                                            today: int, now: int, scan: seq<int>)
    requires IsScan(scan, s.profiles)
    requires |args| > 0 && telegramId in s.profiles
    requires !SentSince(s.links, s.profiles[telegramId].id, today)
    ensures var (s', o) := SendLink(s, telegramId, args, today, now, scan);
            && (o.NoUsers? || o.Shared?)
            && SentSince(s'.links, s.profiles[telegramId].id, today) == (today <= now)
            && (o.NoUsers? <==> |s.profiles| == 1)
            && (o.Shared? ==>
                  && |o.audience| == Min(AudienceLimit, |s.profiles| - 1)
                  && Distinct(o.audience)
                  && (forall t :: t in o.audience ==> t in s.profiles && t != telegramId))
  {
    ScanCoversTable(scan, s.profiles);
    var (s', o) := SendLink(s, telegramId, args, today, now, scan);
    var userId := s.profiles[telegramId].id;
    assert s'.links[|s.links|] == LinkEvent(userId, args[0], now);
    if today > now {
      forall i | 0 <= i < |s'.links|
        ensures !(s'.links[i].userId == userId && s'.links[i].createdAt >= today)
      {
        if i < |s.links| {
          assert s'.links[i] == s.links[i];
        }
      }
    }
  }

  // ---------------------------------------------------------------------------------------
  // redeem

  /** redeem, case by case: unregistered callers and callers under RewardCost points change
      nothing; otherwise exactly RewardCost points leave the caller's row, which stays
      non-negative, and nothing else changes. */
  lemma {:induction false} RedeemOutcomes(s: Store, telegramId: int)
    ensures var (s', o) := Redeem(s, telegramId);
            && (o == NotRegistered <==> telegramId !in s.profiles)
            && (o == TooFewPoints <==>
                  telegramId in s.profiles && s.profiles[telegramId].points < RewardCost)
            && (o == Redeemed <==>
                  telegramId in s.profiles && s.profiles[telegramId].points >= RewardCost)
            && (o != Redeemed ==> s' == s)
            && (o == Redeemed ==>
                  && s'.links == s.links
                  && s'.profiles.Keys == s.profiles.Keys
                  && s'.profiles[telegramId].points == s.profiles[telegramId].points - RewardCost
                  && s'.profiles[telegramId].points >= 0
                  && s'.profiles[telegramId] == s.profiles[telegramId].(points := s'.profiles[telegramId].points)
                  && (forall u :: u in s.profiles && u != telegramId ==> s'.profiles[u] == s.profiles[u]))
  {
  }

  lemma {:induction false} RedeemPreservesWellFormed(s: Store, telegramId: int)
    requires WellFormed(s)
    ensures WellFormed(Redeem(s, telegramId).0)
  {
    var s' := Redeem(s, telegramId).0;
    forall t, u | t in s'.profiles && u in s'.profiles && t != u
      ensures s'.profiles[t].id != s'.profiles[u].id
    {
      assert s'.profiles[t].id == s.profiles[t].id && s'.profiles[u].id == s.profiles[u].id;
    }
  }

  // ---------------------------------------------------------------------------------------
  // a session

  /** Alice registers without a code; Bob registers with Alice's code, which credits her;
      Bob's first share of the day reaches Alice and records one event, and his second share
      the same day is refused without writing anything. */
  lemma {:induction false} ReferralSession(drawsA: seq<nat>, drawsB: seq<nat>)
    requires ReferralCode.ValidDraws(drawsA) && ReferralCode.ValidDraws(drawsB)
    ensures var (s1, o1) := Start(Store(map[], []), 1, Some("alice"), [], drawsA, 100, []);
            var (s2, o2) := Start(s1, 2, Some("bob"), [o1.code], drawsB, 200, [1]);
            var (s3, o3) := SendLink(s2, 2, ["hello"], 7, 7, [1, 2]);
            var (s4, o4) := SendLink(s3, 2, ["hello"], 7, 7, [2, 1]);
            && o1 == Welcome("alice", ReferralCode.Generate(drawsA))
            && o2 == Welcome("bob", ReferralCode.Generate(drawsB))
            && s2.profiles[1].referrals == 1 && s2.profiles[1].points == ReferralBonus
            && s2.profiles[2].referredBy == Some(o1.code)
            && o3 == Shared([1]) && s3.links == [LinkEvent(200, "hello", 7)]
            && o4 == AlreadySentToday && s4 == s3
  {
    var (s1, o1) := Start(Store(map[], []), 1, Some("alice"), [], drawsA, 100, []);
    assert |o1.code| == 8;
    assert FindByCode([1], s1.profiles, o1.code) == Some(0);
    var (s2, o2) := Start(s1, 2, Some("bob"), [o1.code], drawsB, 200, [1]);
    var (s3, o3) := SendLink(s2, 2, ["hello"], 7, 7, [1, 2]);
    assert SelectAudience([1, 2], 2, AudienceLimit) == [1];
    assert s3.links[0].userId == 200 && s3.links[0].createdAt >= 7;
  }
}
