/**
 Refresh-token rotation (`security/tokens.py`), as in section 10.4 of RFC 6749.

 A token is named by the position of its row: ids and hashes are drawn at random and only
 compared, so insertion order stands in for them.  Times are passed in, since the source
 reads the clock of the process and of the database.
 */
module Tokens {
  import opened Wrappers

  datatype Token = Token(
    tenant: nat, user: nat, hash: string, expiresAt: int, revokedAt: Option<int>, replacedBy: Option<nat>)

  /** `RefreshTokenError` and its subclass `RefreshTokenReused`. */
  datatype Error = Absent | Unknown | Reused | Expired | HashTaken

  predicate Live(t: Token) { t.revokedAt.None? }

  // ---------------------------------------------------------------------------
  // The linked structure
  // ---------------------------------------------------------------------------

  /** The links go forward, stay within one owner, never meet, and leave only revoked tokens. */
  ghost predicate ChainInv(rows: seq<Token>) {
    (forall i :: 0 <= i < |rows| && rows[i].replacedBy.Some? ==> rows[i].replacedBy.value < |rows| && !Live(rows[i])) &&
    (forall i, j :: 0 <= i < |rows| && 0 <= j < |rows| && rows[i].replacedBy == Some(j) ==>
       i < j && rows[j].tenant == rows[i].tenant && rows[j].user == rows[i].user) &&
    (forall i, j :: 0 <= i < j < |rows| && rows[i].replacedBy.Some? ==> rows[i].replacedBy != rows[j].replacedBy)
  }

  /** `uq_refresh_tokens_token_hash`. */
  predicate HashesUnique(rows: seq<Token>) {
    forall i, j :: 0 <= i < j < |rows| ==> rows[i].hash != rows[j].hash
  }

  ghost predicate Inv(rows: seq<Token>) { ChainInv(rows) && HashesUnique(rows) }

  /** `path` follows `replaced_by` link by link. */
  ghost predicate Follows(rows: seq<Token>, path: seq<nat>) {
    path != [] && (forall i :: 0 <= i < |path| ==> path[i] < |rows|) &&
    forall i :: 0 <= i < |path| - 1 ==> rows[path[i]].replacedBy == Some(path[i + 1])
  }

  /** `j` is `i` or one of its descendants. */
  ghost predicate Leads(rows: seq<Token>, i: nat, j: nat) {
    exists path :: Follows(rows, path) && path[0] == i && path[|path| - 1] == j
  }

  /** Two tokens of one rotation chain. */
  ghost predicate SameChain(rows: seq<Token>, i: nat, j: nat) {
    Leads(rows, i, j) || Leads(rows, j, i)
  }

  /** The descendants of a token, the token first. */
  ghost function Chain(rows: seq<Token>, i: nat): seq<nat>
    requires ChainInv(rows) && i < |rows|
    decreases |rows| - i
  {
    [i] + if rows[i].replacedBy.Some? then Chain(rows, rows[i].replacedBy.value) else []
  }

  /** What the walk has yet to visit. */
  ghost function Unwalked(rows: seq<Token>, working: seq<nat>): seq<nat>
    requires ChainInv(rows) && |working| <= 1 && (working != [] ==> working[0] < |rows|)
  {
    if working == [] then [] else Chain(rows, working[0])
  }

  lemma WalkOn(walked: seq<nat>, id: nat, rest: seq<nat>)
    ensures walked + ([id] + rest) == (walked + [id]) + rest
  {
  }

  function Revoke(t: Token, now: int): Token {
    if t.revokedAt.None? then t.(revokedAt := Some(now)) else t
  }

  /** The table after `_revoke_chain`. */
  ghost function Revoked(rows: seq<Token>, start: nat, now: int): seq<Token>
    requires ChainInv(rows) && start < |rows|
  {
    seq(|rows|, i requires 0 <= i < |rows| =>
      if i in Chain(rows, start) then Revoke(rows[i], now) else rows[i])
  }

  function Find(rows: seq<Token>, hash: string): (r: Option<nat>)
    ensures r.Some? ==> r.value < |rows| && rows[r.value].hash == hash
    ensures r.None? ==> forall i :: 0 <= i < |rows| ==> rows[i].hash != hash
  {
    if rows == [] then None
    else if rows[|rows| - 1].hash == hash then Some(|rows| - 1)
    else Find(rows[..|rows| - 1], hash)
  }

  // ---------------------------------------------------------------------------
  // The table
  // ---------------------------------------------------------------------------

  class RefreshTokens {
    var rows: seq<Token>

    constructor ()
      ensures rows == []
    {
      rows := [];
    }

    /** `issue_refresh_token`; a hash already present violates the unique constraint. */
    method Issue(tenant: nat, user: nat, hash: string, expiresAt: int) returns (r: Result<nat, Error>)
      requires Inv(rows)
      modifies this
      ensures Inv(rows)
      ensures r.Failure? <==> Find(old(rows), hash).Some?
      ensures r.Failure? ==> r.error == HashTaken && rows == old(rows)
      ensures r.Success? ==>
                r.value == |old(rows)| &&
                rows == old(rows) + [Token(tenant, user, hash, expiresAt, None, None)]
      ensures rows == Apply(old(rows), OpIssue(tenant, user, hash, expiresAt))
    {
      if Find(rows, hash).Some? {
        return Failure(HashTaken);
      }
      IssueKeeps(rows, Token(tenant, user, hash, expiresAt, None, None));
      rows := rows + [Token(tenant, user, hash, expiresAt, None, None)];
      return Success(|rows| - 1);
    }

    /** The recursive query of `_revoke_chain`: the descendants, one generation at a time. */
    method CollectChain(start: nat) returns (chain: seq<nat>)
      requires ChainInv(rows) && start < |rows|
      ensures chain == Chain(rows, start)
    {
      chain := [];
      var working: seq<nat> := [start];
      while working != []
        invariant |working| <= 1 && (working != [] ==> working[0] < |rows|)
        invariant Chain(rows, start) == chain + Unwalked(rows, working)
        decreases if working == [] then 0 else 1 + |rows| - working[0]
      {
        var id := working[0];
        var next := if rows[id].replacedBy.Some? then [rows[id].replacedBy.value] else [];
        WalkOn(chain, id, Unwalked(rows, next));
        chain, working := chain + [id], next;
      }
    }

    /** `_revoke_chain`: one update revokes those of the chain that are still live. */
    method RevokeChain(start: nat, now: int)
      requires ChainInv(rows) && start < |rows|
      modifies this
      ensures rows == Revoked(old(rows), start, now)
    {
      var chain := CollectChain(start);
      for k := 0 to |rows|
        invariant |rows| == |old(rows)|
        invariant forall i :: 0 <= i < |rows| ==>
          rows[i] == if i < k && i in chain then Revoke(old(rows)[i], now) else old(rows)[i]
      {
        if k in chain {
          rows := rows[k := Revoke(rows[k], now)];
        }
      }
    }

    /** `rotate_refresh_token`, with the state its session has when it returns or raises. */
    method Rotate(plain: string, hash: string, now: int, newHash: string, newExpiresAt: int)
      returns (r: Result<(nat, nat, nat), Error>)
      requires Inv(rows)
      modifies this
      ensures Inv(rows)
      ensures rows == Rotated(old(rows), plain, hash, now, newHash, newExpiresAt).0
      ensures r == Rotated(old(rows), plain, hash, now, newHash, newExpiresAt).1
      ensures r.Success? <==> MayRotate(old(rows), plain, hash, now, newHash)
      ensures r.Success? ==>
                exists i :: 0 <= i < |old(rows)| && HandsOver(old(rows), i, rows, now, newHash, newExpiresAt) &&
                            old(rows)[i].hash == hash && r.value == (rows[i].tenant, rows[i].user, |old(rows)|)
      ensures rows == Apply(old(rows), OpRotate(plain, hash, now, newHash, newExpiresAt, true))
    {
      RotationIff(rows, plain, hash, now, newHash, newExpiresAt);
      RotatedKeeps(rows, plain, hash, now, newHash, newExpiresAt);
      if plain == "" {
        return Failure(Absent);
      }
      var found := Find(rows, hash);
      if found.None? {
        return Failure(Unknown);
      }
      var id := found.value;
      var row := rows[id];
      if row.revokedAt.Some? {
        RevokeChain(id, now);
        return Failure(Reused);
      }
      if row.expiresAt <= now {
        return Failure(Expired);
      }
      var issued := Issue(row.tenant, row.user, newHash, newExpiresAt);
      if issued.Failure? {
        return Failure(issued.error);
      }
      rows := rows[id := rows[id].(revokedAt := Some(now), replacedBy := Some(issued.value))];
      assert rows == Rotation(old(rows), id, newHash, newExpiresAt, now);
      RotationHandsOver(old(rows), id, newHash, newExpiresAt, now);
      return Success((row.tenant, row.user, issued.value));
    }

    /** `revoke_refresh_token`: true exactly when a live token was revoked. */
    method RevokeOne(plain: string, hash: string, now: int) returns (revoked: bool)
      requires Inv(rows)
      modifies this
      ensures Inv(rows)
      ensures revoked <==> plain != "" && exists i :: 0 <= i < |old(rows)| && old(rows)[i].hash == hash && Live(old(rows)[i])
      ensures |rows| == |old(rows)|
      ensures forall i :: 0 <= i < |rows| ==>
                rows[i] == if plain != "" && old(rows)[i].hash == hash then Revoke(old(rows)[i], now) else old(rows)[i]
    {
      if plain == "" {
        return false;
      }
      var found := Find(rows, hash);
      if found.None? || !Live(rows[found.value]) {
        return false;
      }
      rows := rows[found.value := Revoke(rows[found.value], now)];
      return true;
    }
  }

  /** What rotation does to a live, unexpired token. */
  function Rotation(rows: seq<Token>, id: nat, newHash: string, newExpiresAt: int, now: int): seq<Token>
    requires id < |rows|
  {
    rows[id := rows[id].(revokedAt := Some(now), replacedBy := Some(|rows|))]
    + [Token(rows[id].tenant, rows[id].user, newHash, newExpiresAt, None, None)]
  }

  ghost function Rotated(
      rows: seq<Token>, plain: string, hash: string, now: int, newHash: string, newExpiresAt: int)
    : (seq<Token>, Result<(nat, nat, nat), Error>)
    requires Inv(rows)
  {
    var found := Find(rows, hash);
    if plain == "" then (rows, Failure(Absent))
    else if found.None? then (rows, Failure(Unknown))
    else
      var row := rows[found.value];
      if !Live(row) then (Revoked(rows, found.value, now), Failure(Reused))
      else if row.expiresAt <= now then (rows, Failure(Expired))
      else if Find(rows, newHash).Some? then (rows, Failure(HashTaken))
      else (Rotation(rows, found.value, newHash, newExpiresAt, now), Success((row.tenant, row.user, |rows|)))
  }

  predicate Holds(rows: seq<Token>, hash: string) {
    exists i :: 0 <= i < |rows| && rows[i].hash == hash
  }

  /** The token presented is live and unexpired. */
  predicate Valid(rows: seq<Token>, plain: string, hash: string, now: int) {
    plain != "" && exists i :: 0 <= i < |rows| && rows[i].hash == hash && Live(rows[i]) && now < rows[i].expiresAt
  }

  /** And the hash drawn for the new one is not taken. */
  predicate MayRotate(rows: seq<Token>, plain: string, hash: string, now: int, newHash: string) {
    Valid(rows, plain, hash, now) && !Holds(rows, newHash)
  }

  /**
   Row `i` is revoked now and linked to a new live row of its owner, with the new hash and
   expiry; nothing else changes.
   */
  predicate HandsOver(rows: seq<Token>, i: nat, rows': seq<Token>, now: int, newHash: string, newExpiresAt: int) {
    var n := |rows|;
    i < n && |rows'| == n + 1 &&
    rows'[i].revokedAt == Some(now) && rows'[i].replacedBy == Some(n) &&
    rows'[i].tenant == rows[i].tenant && rows'[i].user == rows[i].user &&
    rows'[i].hash == rows[i].hash && rows'[i].expiresAt == rows[i].expiresAt &&
    rows'[n].tenant == rows[i].tenant && rows'[n].user == rows[i].user &&
    rows'[n].hash == newHash && rows'[n].expiresAt == newExpiresAt && Live(rows'[n]) && rows'[n].replacedBy.None? &&
    forall j :: 0 <= j < n && j != i ==> rows'[j] == rows[j]
  }

  /** A rotation succeeds exactly when it may, and each refusal names the first thing that is wrong. */
  lemma RotationIff(rows: seq<Token>, plain: string, hash: string, now: int, newHash: string, newExpiresAt: int)
    requires Inv(rows)
    ensures var r := Rotated(rows, plain, hash, now, newHash, newExpiresAt).1;
            r.Success? <==> MayRotate(rows, plain, hash, now, newHash)
    ensures var r := Rotated(rows, plain, hash, now, newHash, newExpiresAt).1;
            r.Failure? ==>
              match r.error
              case Absent => plain == ""
              case Unknown => plain != "" && !Holds(rows, hash)
              case Reused => plain != "" && exists i :: 0 <= i < |rows| && rows[i].hash == hash && !Live(rows[i])
              case Expired =>
                plain != "" && exists i :: 0 <= i < |rows| && rows[i].hash == hash && Live(rows[i]) && rows[i].expiresAt <= now
              case HashTaken => Valid(rows, plain, hash, now) && Holds(rows, newHash)
  {
    var found := Find(rows, hash);
    if found.Some? {
      forall i | 0 <= i < |rows| && rows[i].hash == hash ensures i == found.value {
      }
    }
  }

  /** What a rotation leaves: the old token handed over to exactly one new one. */
  lemma RotationHandsOver(rows: seq<Token>, id: nat, newHash: string, newExpiresAt: int, now: int)
    requires id < |rows|
    ensures HandsOver(rows, id, Rotation(rows, id, newHash, newExpiresAt, now), now, newHash, newExpiresAt)
  {
  }

  /** Only a rotation that succeeds is committed, with what it handed over; a refusal commits nothing. */
  lemma CommittedIff(rows: seq<Token>, plain: string, hash: string, now: int, newHash: string, newExpiresAt: int)
    requires Inv(rows)
    ensures var rows' := Apply(rows, OpRotate(plain, hash, now, newHash, newExpiresAt, false));
            if MayRotate(rows, plain, hash, now, newHash)
            then exists i :: 0 <= i < |rows| && rows[i].hash == hash && HandsOver(rows, i, rows', now, newHash, newExpiresAt)
            else rows' == rows
  {
    RotationIff(rows, plain, hash, now, newHash, newExpiresAt);
    if MayRotate(rows, plain, hash, now, newHash) {
      RotationHandsOver(rows, Find(rows, hash).value, newHash, newExpiresAt, now);
    }
  }

  lemma RotationKeeps(rows: seq<Token>, id: nat, newHash: string, newExpiresAt: int, now: int)
    requires Inv(rows) && id < |rows| && Live(rows[id]) && Find(rows, newHash).None?
    ensures Inv(Rotation(rows, id, newHash, newExpiresAt, now))
  {
    RotationKeepsChains(rows, id, newHash, newExpiresAt, now);
  }

  lemma RotationKeepsChains(rows: seq<Token>, id: nat, newHash: string, newExpiresAt: int, now: int)
    requires ChainInv(rows) && id < |rows| && Live(rows[id])
    ensures ChainInv(Rotation(rows, id, newHash, newExpiresAt, now))
  {
    var rows' := Rotation(rows, id, newHash, newExpiresAt, now);
    forall i | 0 <= i < |rows'| && rows'[i].replacedBy.Some?
      ensures i < |rows| && rows'[i].replacedBy == if i == id then Some(|rows|) else rows[i].replacedBy
    {
    }
  }

  lemma RevokedKeeps(rows: seq<Token>, start: nat, now: int)
    requires Inv(rows) && start < |rows|
    ensures Inv(Revoked(rows, start, now))
  {
    OnlyTimesChange(rows, start, now);
    ChainsByLinks(rows, Revoked(rows, start, now));
  }

  lemma OnlyTimesChange(rows: seq<Token>, start: nat, now: int)
    requires ChainInv(rows) && start < |rows|
    ensures |Revoked(rows, start, now)| == |rows| && OnlyRevokes(rows, Revoked(rows, start, now))
  {
  }

  /** Row by row, nothing changes but the time of revocation, and revoked tokens stay so. */
  ghost predicate OnlyRevokes(rows: seq<Token>, rows': seq<Token>)
    requires |rows'| == |rows|
  {
    forall i :: 0 <= i < |rows| ==>
      rows'[i] == rows[i].(revokedAt := rows'[i].revokedAt) && (!Live(rows[i]) ==> !Live(rows'[i]))
  }

  lemma ChainsByLinks(rows: seq<Token>, rows': seq<Token>)
    requires ChainInv(rows) && |rows'| == |rows| && OnlyRevokes(rows, rows')
    ensures ChainInv(rows')
  {
  }

  // ---------------------------------------------------------------------------
  // Chains
  // ---------------------------------------------------------------------------

  lemma LeadsNext(rows: seq<Token>, i: nat, j: nat)
    requires i < |rows| && rows[i].replacedBy.Some? && Leads(rows, rows[i].replacedBy.value, j)
    ensures Leads(rows, i, j)
  {
    var path :| Follows(rows, path) && path[0] == rows[i].replacedBy.value && path[|path| - 1] == j;
    var longer := [i] + path;
    assert forall k :: 0 <= k < |longer| - 1 ==> longer[k + 1] == path[k] && (k > 0 ==> longer[k] == path[k - 1]);
    assert Follows(rows, longer);
  }

  lemma LeadsSelf(rows: seq<Token>, i: nat)
    requires i < |rows|
    ensures Leads(rows, i, i)
  {
    assert Follows(rows, [i]);
  }

  /** The recursive query collects exactly the tokens that links lead to, and stops. */
  lemma {:induction false} ChainIsReachability(rows: seq<Token>, i: nat, j: nat)
    requires ChainInv(rows) && i < |rows|
    ensures j in Chain(rows, i) <==> Leads(rows, i, j)
    ensures Leads(rows, i, j) ==> i <= j < |rows|
    decreases |rows| - i
  {
    LeadsSelf(rows, i);
    if rows[i].replacedBy.Some? {
      var next := rows[i].replacedBy.value;
      ChainIsReachability(rows, next, j);
      if Leads(rows, next, j) {
        LeadsNext(rows, i, j);
      }
    }
    if Leads(rows, i, j) && i != j {
      LeadsFirst(rows, i, j);
    }
  }

  lemma LeadsFirst(rows: seq<Token>, i: nat, j: nat)
    requires Leads(rows, i, j) && i != j
    ensures i < |rows| && rows[i].replacedBy.Some? && Leads(rows, rows[i].replacedBy.value, j)
  {
    var path :| Follows(rows, path) && path[0] == i && path[|path| - 1] == j;
    assert rows[path[0]].replacedBy == Some(path[1]);
    assert forall k :: 0 <= k < |path| - 1 ==> path[1..][k] == path[k + 1];
    assert Follows(rows, path[1..]);
  }

  /** Chains have no cycles, and one owner. */
  lemma {:induction false} ChainsAreAcyclicAndOwned(rows: seq<Token>, i: nat, j: nat)
    requires ChainInv(rows) && i < |rows| && Leads(rows, i, j)
    ensures j < |rows| && i <= j && (Leads(rows, j, i) ==> i == j)
    ensures rows[j].tenant == rows[i].tenant && rows[j].user == rows[i].user
    decreases |rows| - i
  {
    ChainIsReachability(rows, i, j);
    if Leads(rows, j, i) { ChainIsReachability(rows, j, i); }
    if i != j {
      LeadsFirst(rows, i, j);
      ChainsAreAcyclicAndOwned(rows, rows[i].replacedBy.value, j);
    }
  }

  lemma {:induction false} LeadsTransitive(rows: seq<Token>, i: nat, j: nat, k: nat)
    requires ChainInv(rows) && i < |rows| && Leads(rows, i, j) && Leads(rows, j, k)
    ensures Leads(rows, i, k)
    decreases |rows| - i
  {
    if i != j {
      LeadsFirst(rows, i, j);
      LeadsTransitive(rows, rows[i].replacedBy.value, j, k);
      LeadsNext(rows, i, k);
    }
  }

  /** Two tokens with a common ancestor, or a common descendant, lie on one path. */
  lemma {:induction false} PathsDoNotFork(rows: seq<Token>, a: nat, i: nat, j: nat)
    requires ChainInv(rows) && a < |rows| && Leads(rows, a, i) && Leads(rows, a, j)
    ensures SameChain(rows, i, j)
    decreases |rows| - a
  {
    if a != i && a != j {
      LeadsFirst(rows, a, i);
      LeadsFirst(rows, a, j);
      PathsDoNotFork(rows, rows[a].replacedBy.value, i, j);
    }
  }

  lemma LeadsLast(rows: seq<Token>, i: nat, d: nat) returns (prev: nat)
    requires ChainInv(rows) && Leads(rows, i, d) && i != d
    ensures prev < |rows| && prev < d && rows[prev].replacedBy == Some(d) && Leads(rows, i, prev)
  {
    var path :| Follows(rows, path) && path[0] == i && path[|path| - 1] == d;
    var n := |path| - 1;
    prev := path[n - 1];
    assert rows[path[n - 1]].replacedBy == Some(path[n]);
    assert Follows(rows, path[..n]);
  }

  lemma {:induction false} PathsDoNotMeet(rows: seq<Token>, i: nat, j: nat, d: nat)
    requires ChainInv(rows) && Leads(rows, i, d) && Leads(rows, j, d)
    ensures SameChain(rows, i, j)
    decreases d
  {
    if i != d && j != d {
      var p := LeadsLast(rows, i, d);
      var q := LeadsLast(rows, j, d);
      assert p == q;
      PathsDoNotMeet(rows, i, j, p);
    }
  }

  /** The chains of the table are disjoint: being of one chain is an equivalence. */
  lemma ChainsAreDisjoint(rows: seq<Token>, i: nat, j: nat, k: nat)
    requires ChainInv(rows) && i < |rows| && j < |rows| && k < |rows|
    requires SameChain(rows, i, j) && SameChain(rows, j, k)
    ensures SameChain(rows, i, k)
  {
    if Leads(rows, i, j) && Leads(rows, j, k) {
      LeadsTransitive(rows, i, j, k);
    } else if Leads(rows, i, j) {
      PathsDoNotMeet(rows, i, k, j);
    } else if Leads(rows, j, k) {
      PathsDoNotFork(rows, j, i, k);
    } else {
      LeadsTransitive(rows, k, j, i);
    }
  }

  /** Each chain has at most one live token, and it is the tail. */
  lemma OneLivePerChain(rows: seq<Token>, i: nat, j: nat)
    requires ChainInv(rows) && i < |rows| && j < |rows| && Live(rows[i]) && SameChain(rows, i, j)
    ensures rows[i].replacedBy.None? && Leads(rows, j, i)
    ensures Live(rows[j]) ==> i == j
  {
    LeadsSelf(rows, i);
    if Leads(rows, i, j) && i != j {
      LeadsFirst(rows, i, j);
    }
    if Leads(rows, j, i) && i != j {
      LeadsFirst(rows, j, i);
    }
  }

  /** Revoking from any member leaves no live token in its whole chain. */
  lemma RevokedChainIsDead(rows: seq<Token>, start: nat, now: int, j: nat)
    requires ChainInv(rows) && start < |rows| && j < |rows| && SameChain(rows, start, j)
    ensures !Live(Revoked(rows, start, now)[j])
  {
    ChainIsReachability(rows, start, j);
    if !Leads(rows, start, j) {
      if start != j { LeadsFirst(rows, j, start); }
    }
  }

  /** It touches the descendants only, and of them only the ones still live; earlier times are kept. */
  lemma RevokedChangesOnlyLiveDescendants(rows: seq<Token>, start: nat, now: int, j: nat)
    requires ChainInv(rows) && start < |rows| && j < |rows|
    ensures var t := Revoked(rows, start, now)[j];
            (t != rows[j] <==> Leads(rows, start, j) && Live(rows[j])) &&
            t == rows[j].(revokedAt := t.revokedAt) && (t != rows[j] ==> t.revokedAt == Some(now))
  {
    ChainIsReachability(rows, start, j);
  }

  // ---------------------------------------------------------------------------
  // Runs
  // ---------------------------------------------------------------------------

  /**
   The calls that write the table.  `kept` tells whether the session of a rotation that
   raises keeps its writes, as it does until it ends, or rolls them back.
   */
  datatype Op =
    | OpIssue(tenant: nat, user: nat, hash: string, expiresAt: int)
    | OpRotate(plain: string, hash: string, now: int, newHash: string, newExpiresAt: int, kept: bool)
    | OpRevoke(plain: string, hash: string, now: int)

  ghost function Apply(rows: seq<Token>, op: Op): seq<Token>
    requires Inv(rows)
  {
    match op
    case OpIssue(tenant, user, hash, expiresAt) =>
      if Find(rows, hash).Some? then rows else rows + [Token(tenant, user, hash, expiresAt, None, None)]
    case OpRotate(plain, hash, now, newHash, newExpiresAt, kept) =>
      if kept then Rotated(rows, plain, hash, now, newHash, newExpiresAt).0
      else Committed(rows, plain, hash, now, newHash, newExpiresAt)
    case OpRevoke(plain, hash, now) =>
      var found := Find(rows, hash);
      if plain == "" || found.None? then rows else rows[found.value := Revoke(rows[found.value], now)]
  }

  /** Revoking one token, as `RevokeOne` leaves the table. */
  lemma RevokeOneRow(rows: seq<Token>, plain: string, hash: string, now: int)
    requires Inv(rows)
    ensures var rows' := Apply(rows, OpRevoke(plain, hash, now));
            |rows'| == |rows| &&
            forall i :: 0 <= i < |rows| ==>
              rows'[i] == if plain != "" && rows[i].hash == hash then Revoke(rows[i], now) else rows[i]
  {
  }

  /** What `/auth/refresh` commits: `get_admin_session` rolls back when the rotation raises. */
  ghost function Committed(
      rows: seq<Token>, plain: string, hash: string, now: int, newHash: string, newExpiresAt: int): seq<Token>
    requires Inv(rows)
  {
    var r := Rotated(rows, plain, hash, now, newHash, newExpiresAt);
    if r.1.Success? then r.0 else rows
  }

  lemma IssueKeeps(rows: seq<Token>, t: Token)
    requires Inv(rows) && t.replacedBy.None? && Find(rows, t.hash).None?
    ensures Inv(rows + [t])
  {
    IssueKeepsChains(rows, t);
  }

  lemma IssueKeepsChains(rows: seq<Token>, t: Token)
    requires ChainInv(rows) && t.replacedBy.None?
    ensures ChainInv(rows + [t])
  {
    var rows' := rows + [t];
    assert forall i :: 0 <= i < |rows'| && rows'[i].replacedBy.Some? ==> i < |rows| && rows'[i] == rows[i];
  }

  lemma RevokeKeeps(rows: seq<Token>, id: nat, now: int)
    requires Inv(rows) && id < |rows|
    ensures Inv(rows[id := Revoke(rows[id], now)])
  {
  }

  lemma RotatedKeeps(rows: seq<Token>, plain: string, hash: string, now: int, newHash: string, newExpiresAt: int)
    requires Inv(rows)
    ensures Inv(Rotated(rows, plain, hash, now, newHash, newExpiresAt).0)
  {
    var found := Find(rows, hash);
    if plain != "" && found.Some? {
      var id := found.value;
      if !Live(rows[id]) {
        RevokedKeeps(rows, id, now);
      } else if rows[id].expiresAt > now && Find(rows, newHash).None? {
        RotationKeeps(rows, id, newHash, newExpiresAt, now);
      }
    }
  }

  lemma ApplyKeeps(rows: seq<Token>, op: Op)
    requires Inv(rows)
    ensures Inv(Apply(rows, op))
  {
    match op {
      case OpIssue(tenant, user, hash, expiresAt) =>
        if Find(rows, hash).None? {
          IssueKeeps(rows, Token(tenant, user, hash, expiresAt, None, None));
        }
      case OpRotate(plain, hash, now, newHash, newExpiresAt, _) =>
        RotatedKeeps(rows, plain, hash, now, newHash, newExpiresAt);
      case OpRevoke(_, hash, now) =>
        if Find(rows, hash).Some? {
          RevokeKeeps(rows, Find(rows, hash).value, now);
        }
    }
  }

  /** The table after any sequence of calls. */
  ghost function Run(ops: seq<Op>): (rows: seq<Token>)
    ensures Inv(rows)
  {
    if ops == [] then []
    else
      var before := Run(ops[..|ops| - 1]);
      ApplyKeeps(before, ops[|ops| - 1]);
      Apply(before, ops[|ops| - 1])
  }

  /**
   In every table the calls can produce, chains are disjoint acyclic paths of one owner,
   and a chain has at most one live token.
   */
  lemma EveryRunKeepsChains(ops: seq<Op>, i: nat, j: nat)
    ensures var rows := Run(ops);
            i < |rows| && j < |rows| && SameChain(rows, i, j) ==>
              rows[i].tenant == rows[j].tenant && rows[i].user == rows[j].user &&
              (Leads(rows, i, j) && Leads(rows, j, i) ==> i == j) &&
              (Live(rows[i]) && Live(rows[j]) ==> i == j)
  {
    var rows := Run(ops);
    if i < |rows| && j < |rows| && SameChain(rows, i, j) {
      ChainsOfOne(rows, i, j);
    }
  }

  lemma ChainsOfOne(rows: seq<Token>, i: nat, j: nat)
    requires ChainInv(rows) && i < |rows| && j < |rows| && SameChain(rows, i, j)
    ensures rows[i].tenant == rows[j].tenant && rows[i].user == rows[j].user
    ensures Leads(rows, i, j) && Leads(rows, j, i) ==> i == j
    ensures Live(rows[i]) && Live(rows[j]) ==> i == j
  {
    if Leads(rows, i, j) { ChainsAreAcyclicAndOwned(rows, i, j); }
    if Leads(rows, j, i) { ChainsAreAcyclicAndOwned(rows, j, i); }
    if Live(rows[i]) { OneLivePerChain(rows, i, j); }
  }

  /** The last descendant of a token. */
  ghost function Tail(rows: seq<Token>, i: nat): (t: nat)
    requires ChainInv(rows) && i < |rows|
    ensures t < |rows| && rows[t].replacedBy.None?
    decreases |rows| - i
  {
    if rows[i].replacedBy.Some? then Tail(rows, rows[i].replacedBy.value) else i
  }

  lemma {:induction false} TailIsReached(rows: seq<Token>, i: nat)
    requires ChainInv(rows) && i < |rows|
    ensures Leads(rows, i, Tail(rows, i))
    decreases |rows| - i
  {
    if rows[i].replacedBy.Some? {
      TailIsReached(rows, rows[i].replacedBy.value);
      LeadsNext(rows, i, Tail(rows, i));
    } else {
      LeadsSelf(rows, i);
    }
  }

  /**
   Presenting a revoked token: the session sees its whole chain dead when the call raises,
   but the rollback restores the table, so the committed chain keeps a live token if and
   only if its tail was live before the call.
   */
  lemma ReuseIsRolledBack(rows: seq<Token>, plain: string, hash: string, now: int, newHash: string, newExpiresAt: int)
    requires Inv(rows) && plain != "" && Find(rows, hash).Some? && !Live(rows[Find(rows, hash).value])
    ensures var id := Find(rows, hash).value;
            Rotated(rows, plain, hash, now, newHash, newExpiresAt) == (Revoked(rows, id, now), Failure(Reused)) &&
            forall j :: 0 <= j < |rows| && SameChain(rows, id, j) ==> !Live(Revoked(rows, id, now)[j])
    ensures var id := Find(rows, hash).value;
            var committed := Committed(rows, plain, hash, now, newHash, newExpiresAt);
            |committed| == |rows| &&
            ((exists j :: 0 <= j < |rows| && SameChain(rows, id, j) && Live(committed[j])) <==>
             Live(rows[Tail(rows, id)]))
  {
    var id := Find(rows, hash).value;
    forall j | 0 <= j < |rows| && SameChain(rows, id, j) ensures !Live(Revoked(rows, id, now)[j]) {
      RevokedChainIsDead(rows, id, now, j);
    }
    var tail := Tail(rows, id);
    TailIsReached(rows, id);
    assert SameChain(rows, id, tail);
    forall j | 0 <= j < |rows| && SameChain(rows, id, j) && Live(rows[j]) ensures j == tail {
      OneLivePerChain(rows, j, id);
      PathsDoNotFork(rows, id, j, tail);
      if j != tail {
        if Leads(rows, j, tail) { LeadsFirst(rows, j, tail); } else { LeadsFirst(rows, tail, j); }
      }
    }
  }
}
