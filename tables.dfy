/** The two tables of the remote store (user_profiles and referral_links), held in memory,
    together with the two row queries the handlers issue against user_profiles. */
module Tables {

  datatype Option<T> = None | Some(value: T)

  /** One row of user_profiles. The table is keyed by telegramId; id is the store's own row id. */
  datatype Profile = Profile(
    id: int,
    telegramId: int,
    username: string,
    referralCode: string,
    referredBy: Option<string>,
    referrals: int,
    points: int)

  /** One row of referral_links; createdAt is the UTC day number of the insertion. */
  datatype LinkEvent = LinkEvent(userId: int, referralLink: string, createdAt: int)

  /** The whole store: user_profiles by telegram id, referral_links in insertion order. */
  datatype Store = Store(profiles: map<int, Profile>, links: seq<LinkEvent>)

  /** The inserting code never sets referrals and points; these are the column defaults
      the model assumes for a fresh row. */
  const InitialReferrals: int := 0
  const InitialPoints: int := 0

  function Min(a: int, b: int): int { if a <= b then a else b }

  predicate Distinct(s: seq<int>)
  {
    forall i, j :: 0 <= i < j < |s| ==> s[i] != s[j]
  }

  /** `scan` is the order in which the store returns the rows of `profiles`:
      every key exactly once. */
  predicate IsScan(scan: seq<int>, profiles: map<int, Profile>)
  {
    && Distinct(scan)
    && (forall i :: 0 <= i < |scan| ==> scan[i] in profiles)
    && (forall t :: t in profiles ==> t in scan)
  }

  predicate HasCode(profiles: map<int, Profile>, t: int, code: string)
  {
    t in profiles && profiles[t].referralCode == code
  }

  predicate CodeInUse(profiles: map<int, Profile>, code: string)
  {
    exists t :: t in profiles && HasCode(profiles, t, code)
  }

  predicate FreshId(profiles: map<int, Profile>, id: int)
  {
    forall t :: t in profiles ==> profiles[t].id != id
  }

  /** Every row is stored under its own telegram id. */
  predicate KeyedByTelegramId(profiles: map<int, Profile>)
  {
    forall t :: t in profiles ==> profiles[t].telegramId == t
  }

  predicate CountersNonNegative(profiles: map<int, Profile>)
  {
    forall t :: t in profiles ==> profiles[t].referrals >= 0 && profiles[t].points >= 0
  }

  predicate DistinctIds(profiles: map<int, Profile>)
  {
    forall t, u :: t in profiles && u in profiles && t != u ==> profiles[t].id != profiles[u].id
  }

  /** Per user, the recorded sends lie on strictly increasing days, so no two of them share
      a UTC day. */
  predicate OncePerDay(links: seq<LinkEvent>)
  {
    forall i, j :: 0 <= i < j < |links| && links[i].userId == links[j].userId ==>
      links[i].createdAt < links[j].createdAt
  }

  predicate WellFormed(s: Store)
  {
    && KeyedByTelegramId(s.profiles)
    && CountersNonNegative(s.profiles)
    && DistinctIds(s.profiles)
    && OncePerDay(s.links)
  }

  /** The rows of `profiles` in the order `scan` lists them. */
  function RowsInScanOrder(profiles: map<int, Profile>, scan: seq<int>): (rows: seq<Profile>)
    requires forall i :: 0 <= i < |scan| ==> scan[i] in profiles
  {
    seq(|scan|, i requires 0 <= i < |scan| => profiles[scan[i]])
  }

  /** Query `user_profiles where referral_code = code`, taking the first row returned:
      the position in `scan` of the first row carrying `code`, if any. */
  function FindByCode(scan: seq<int>, profiles: map<int, Profile>, code: string): (r: Option<nat>)
    ensures r.Some? ==> r.value < |scan| && HasCode(profiles, scan[r.value], code)
    ensures r.Some? ==> forall j :: 0 <= j < r.value ==> !HasCode(profiles, scan[j], code)
    ensures r.None? ==> forall j :: 0 <= j < |scan| ==> !HasCode(profiles, scan[j], code)
  {
    if scan == [] then None
    else if HasCode(profiles, scan[0], code) then Some(0)
    else match FindByCode(scan[1..], profiles, code)
      case None => None
      case Some(i) => Some(i + 1)
  }

  /** Query `user_profiles where telegram_id <> sender limit n`: the first `limit` telegram ids
      of `scan` other than the sender. */
  function SelectAudience(scan: seq<int>, sender: int, limit: nat): (a: seq<int>)
    ensures |a| <= limit
    ensures forall t :: t in a ==> t in scan && t != sender
    ensures |a| < limit ==> forall t :: t in scan && t != sender ==> t in a
    ensures Distinct(scan) ==> Distinct(a)
    ensures Distinct(scan) ==> |a| == Min(limit, if sender in scan then |scan| - 1 else |scan|)
  {
    if scan == [] || limit == 0 then []
    else if scan[0] == sender then
      SelectAudience(scan[1..], sender, limit)
    else
      var rest := SelectAudience(scan[1..], sender, limit - 1);
      assert Distinct(scan) ==> scan[0] !in scan[1..];
      [scan[0]] + rest
  }

  /** A scan lists exactly as many rows as the table holds. */
  lemma {:induction false} ScanCoversTable(scan: seq<int>, profiles: map<int, Profile>)
    requires IsScan(scan, profiles)
    ensures |scan| == |profiles|
  {
    DistinctCardinality(scan);
    var listed := set t | t in scan;
    forall t ensures t in listed <==> t in profiles {
      if t in scan {
        var i :| 0 <= i < |scan| && scan[i] == t;
        assert t in profiles;
      }
    }
    assert listed == profiles.Keys;
  }

  lemma {:induction false} DistinctCardinality(s: seq<int>)
    requires Distinct(s)
    ensures |(set t | t in s)| == |s|
  {
    if s != [] {
      DistinctCardinality(s[1..]);
      assert (set t | t in s) == {s[0]} + (set t | t in s[1..]);
      assert s[0] !in (set t | t in s[1..]);
    }
  }
}
