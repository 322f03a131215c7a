/** Row selection of the leaderboard command: user_profiles ordered by referrals, descending,
    limited to ten rows. Rows with equal referral counts keep the order the store returned
    them in. */
module Leaderboard {
  import opened Tables

  const Limit: nat := 10

  predicate Descending(rows: seq<Profile>)
  {
    forall i, j :: 0 <= i < j < |rows| ==> rows[i].referrals >= rows[j].referrals
  }

  /** Places `p` ahead of the first row whose referral count is no larger than its own. */
  function Insert(p: Profile, rows: seq<Profile>): (r: seq<Profile>)
    ensures multiset(r) == multiset(rows) + multiset{p}
  {
    if rows == [] || p.referrals >= rows[0].referrals then [p] + rows
    else
      assert rows == [rows[0]] + rows[1..];
      [rows[0]] + Insert(p, rows[1..])
  }

  lemma {:induction false} InsertKeepsDescending(p: Profile, rows: seq<Profile>)
    requires Descending(rows)
    ensures Descending(Insert(p, rows))
  {
    if rows != [] && p.referrals < rows[0].referrals {
      var rest := Insert(p, rows[1..]);
      InsertKeepsDescending(p, rows[1..]);
      forall k | 0 <= k < |rest| ensures rest[k].referrals <= rows[0].referrals {
        assert rest[k] in multiset(rest);
        if rest[k] != p {
          assert rest[k] in multiset(rows[1..]);
          var m :| 0 <= m < |rows| - 1 && rows[1..][m] == rest[k];
          assert rows[m + 1] == rest[k];
        }
      }
    }
  }

  /** `order by referrals desc` over the rows in store order. */
  function SortByReferrals(rows: seq<Profile>): (r: seq<Profile>)
    ensures Descending(r)
    ensures multiset(r) == multiset(rows)
  {
    if rows == [] then []
    else
      assert rows == [rows[0]] + rows[1..];
      InsertKeepsDescending(rows[0], SortByReferrals(rows[1..]));
      Insert(rows[0], SortByReferrals(rows[1..]))
  }

  /** `order by referrals desc limit 10`. */
  function Top(rows: seq<Profile>): (top: seq<Profile>)
    ensures |top| == Min(Limit, |rows|)
    ensures Descending(top)
    ensures multiset(top) <= multiset(rows)
  {
    var sorted := SortByReferrals(rows);
    assert |sorted| == |multiset(sorted)| == |rows|;
    if |sorted| <= Limit then sorted
    else
      assert sorted == sorted[..Limit] + sorted[Limit..];
      sorted[..Limit]
  }

  /** A row left off the leaderboard has no more referrals than any row shown on it. */
  lemma {:induction false} TopSelectsHighest(rows: seq<Profile>, shown: Profile, left: Profile)
    requires left in rows && left !in Top(rows)
    requires shown in Top(rows)
    ensures shown.referrals >= left.referrals
  {
    var sorted := SortByReferrals(rows);
    assert left in multiset(rows);
    assert left in sorted;
    var j :| 0 <= j < |sorted| && sorted[j] == left;
    var i :| 0 <= i < |Top(rows)| && Top(rows)[i] == shown;
    assert |sorted| > Limit && Top(rows) == sorted[..Limit];
    assert j >= Limit;
    assert sorted[i] == shown;
  }
}
