/** Facts about selection that the pool's loops need: walks over the map in any order, sorted candidates and ranks. */
module PoolSelect {

  import opened Options
  import opened Accounts
  import opened Selection

  /** The states after the accounts outside `remaining` and `excluded` were tested for eligibility. */
  function Walked(states: States, remaining: set<string>, excluded: set<string>, now: int): States {
    map id | id in states :: if id in remaining || id in excluded then states[id] else Promoted(states[id], now)
  }

  function Members(s: seq<string>): set<string> {
    set id | id in s
  }

  predicate Distinct(s: seq<string>) {
    forall i, j | 0 <= i < j < |s| :: s[i] != s[j]
  }

  lemma {:induction false} DistinctSize(s: seq<string>)
    requires Distinct(s)
    ensures |Members(s)| == |s|
  {
    if s != [] {
      var init, last := s[..|s| - 1], s[|s| - 1];
      DistinctSize(init);
      assert s == init + [last];
      assert Members(s) == Members(init) + {last};
      assert last !in init;
    }
  }

  /** Insertion into a list ordered by ID. */
  function Insert(s: seq<string>, id: string): (r: seq<string>)
    ensures Members(r) == Members(s) + {id}
  {
    if s == [] then [id]
    else if Less(id, s[0]) then [id] + s
    else
      var rest := Insert(s[1..], id);
      assert s == [s[0]] + s[1..];
      assert forall x :: x in [s[0]] + rest <==> x == s[0] || x in Members(rest);
      [s[0]] + rest
  }

  predicate Ascending(s: seq<string>) {
    forall i, j | 0 <= i < j < |s| :: Less(s[i], s[j])
  }

  lemma {:induction false} InsertAscends(s: seq<string>, id: string)
    requires Ascending(s) && id !in s
    ensures Ascending(Insert(s, id))
  {
    if s != [] {
      if Less(id, s[0]) {
        forall j | 0 <= j < |s|
          ensures Less(id, s[j])
        {
          if j > 0 {
            LessTransitive(id, s[0], s[j]);
          }
        }
      } else {
        LessTotal(id, s[0]);
        InsertAscends(s[1..], id);
        var rest := Insert(s[1..], id);
        forall j | 0 <= j < |rest|
          ensures Less(s[0], rest[j])
        {
          assert rest[j] in Members(rest);
        }
      }
    }
  }

  /** In an ascending list the k-th ID has k smaller ones. */
  lemma RankIsIndex(s: seq<string>, k: nat)
    requires Ascending(s) && k < |s|
    ensures |Below(Members(s), s[k])| == k
  {
    forall i, j | 0 <= i < j < |s[..k]|
      ensures s[..k][i] != s[..k][j]
    {
      LessAsymmetric(s[i], s[j]);
    }
    DistinctSize(s[..k]);
    assert Below(Members(s), s[k]) == Members(s[..k]) by {
      forall id | id in Below(Members(s), s[k])
        ensures id in s[..k]
      {
        var i :| 0 <= i < |s| && s[i] == id;
        LessAsymmetric(s[i], s[k]);
        assert i < k;
        assert s[..k][i] == id;
      }
    }
  }

  lemma PromotionIsInvisible(l: Local, m: Model, now: int, policy: Policy)
    ensures var p := Promoted(l, now);
            && Eligible(p, m, now, policy) == Eligible(l, m, now, policy) && Score(p, now) == Score(l, now)
            && p.account.tier == l.account.tier && p.account.id == l.account.id
  {
  }

  /** The IDs already walked that are candidates. */
  ghost predicate Collected(states: States, walked: set<string>, excluded: set<string>, m: Model, now: int,
                            policy: Policy, found: seq<string>) {
    && Distinct(found)
    && forall id :: id in found <==> id in walked && id in states && id !in excluded &&
                                     Eligible(states[id], m, now, policy)
  }

  lemma CollectedAll(states: States, excluded: set<string>, m: Model, now: int, policy: Policy, found: seq<string>)
    requires Collected(states, states.Keys, excluded, m, now, policy, found)
    ensures Members(found) == Candidates(states, excluded, m, now, policy)
  {
  }

  lemma WalkExtends(states: States, remaining: set<string>, id: string, excluded: set<string>, now: int)
    requires id in remaining && id in states
    ensures var walked := Walked(states, remaining, excluded, now);
            && id in walked && walked[id] == states[id]
            && Walked(states, remaining - {id}, excluded, now) == if id in excluded then walked
               else walked[id := Promoted(states[id], now)]
  {
  }

  lemma CollectedExtends(states: States, remaining: set<string>, id: string, excluded: set<string>, m: Model, now: int,
                         policy: Policy, found: seq<string>)
    requires id in remaining && remaining <= states.Keys
    requires Collected(states, states.Keys - remaining, excluded, m, now, policy, found)
    ensures var next := if id !in excluded && Eligible(states[id], m, now, policy) then found + [id] else found;
            Collected(states, states.Keys - (remaining - {id}), excluded, m, now, policy, next)
  {
  }
}
