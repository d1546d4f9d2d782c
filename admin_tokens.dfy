/** The admin token table behind /admin/tokens and /admin/verify_token: rows
    of (id, agent id, name, token value, creation time) that are listed,
    created with a freshly generated token, deleted by id and matched on
    verification. The SQL table is held in memory as a sequence of rows in
    rowid order; the random draws of the token generator and the clock are
    parameters. */
module AdminTokens {
  import opened Wrappers
  import Py

  // ---------------------------------------------------------------------------
  // generate_token
  // ---------------------------------------------------------------------------

  /** The n consecutive ASCII characters from lo on. */
  function CharRange(lo: char, n: nat): (s: string)
    requires lo as int + n <= 128
    ensures |s| == n
    ensures forall i :: 0 <= i < n ==> s[i] as int == lo as int + i
  {
    seq(n, i requires 0 <= i < n => (lo as int + i) as char)
  }

  /** string.ascii_lowercase */
  const Lowercase: string := CharRange('a', 26)
  /** string.ascii_uppercase */
  const Uppercase: string := CharRange('A', 26)
  /** string.digits */
  const Digits: string := CharRange('0', 10)

  /** string.ascii_letters + string.digits */
  const Alphabet: string := Lowercase + Uppercase + Digits

  /** generate_token's default length. */
  const TokenLength: nat := 32

  /** An ASCII letter or digit. */
  predicate IsAlnum(c: char) {
    ('a' <= c <= 'z') || ('A' <= c <= 'Z') || ('0' <= c <= '9')
  }

  /** The alphabet holds exactly the 62 ASCII letters and digits. */
  lemma AlphabetIsAlnum(c: char)
    ensures |Alphabet| == 62
    ensures c in Alphabet <==> IsAlnum(c)
  {
    if 'a' <= c <= 'z' {
      assert Alphabet[c as int - 'a' as int] == c;
    } else if 'A' <= c <= 'Z' {
      assert Alphabet[26 + c as int - 'A' as int] == c;
    } else if '0' <= c <= '9' {
      assert Alphabet[52 + c as int - '0' as int] == c;
    }
    if c in Alphabet {
      var k :| 0 <= k < |Alphabet| && Alphabet[k] == c;
      if k < 26 {
        assert Alphabet[k] == Lowercase[k];
      } else if k < 52 {
        assert Alphabet[k] == Uppercase[k - 26];
      } else {
        assert Alphabet[k] == Digits[k - 52];
      }
    }
  }

  /** generate_token(length): one secrets.choice(alphabet) per position; the
      i-th choice is the alphabet entry that the draw draw(i) selects. */
  function GenerateToken(length: nat, draw: nat -> nat): (t: string)
    ensures |t| == length
    ensures forall i :: 0 <= i < |t| ==> IsAlnum(t[i]) && t[i] in Alphabet
  {
    AlphabetIsAlnum('a');
    var t := seq(length, i requires 0 <= i < length => Alphabet[draw(i) % |Alphabet|]);
    assert forall i :: 0 <= i < |t| ==> t[i] in Alphabet;
    forall i | 0 <= i < |t|
      ensures IsAlnum(t[i])
    {
      AlphabetIsAlnum(t[i]);
    }
    t
  }

  /** Every letter and digit, and nothing else, can appear at any position
      of a generated token. */
  lemma GenerateTokenReaches(length: nat, i: nat, c: char)
    requires i < length
    ensures IsAlnum(c) <==> exists draw: nat -> nat :: GenerateToken(length, draw)[i] == c
  {
    AlphabetIsAlnum(c);
    if IsAlnum(c) {
      var k :| 0 <= k < |Alphabet| && Alphabet[k] == c;
      ConstantDrawPicks(length, i, k);
    }
  }

  /** Drawing k every time puts alphabet entry k at every position. */
  lemma ConstantDrawPicks(length: nat, i: nat, k: nat)
    requires i < length && k < |Alphabet|
    ensures GenerateToken(length, ConstantDraw(k))[i] == Alphabet[k]
  {
    assert ConstantDraw(k)(i) % |Alphabet| == k;
  }

  /** The draw that always selects k. */
  function ConstantDraw(k: nat): (draw: nat -> nat)
    ensures forall j :: draw(j) == k
  {
    (j: nat) => k
  }

  // ---------------------------------------------------------------------------
  // The table.
  // ---------------------------------------------------------------------------

  /** An AgentToken row, as to_dict returns it. */
  datatype Token = Token(id: nat, agentId: string, name: string, token: string, createdAt: string)

  /** Rows in rowid order: ids positive and strictly increasing. */
  predicate IdsIncreasing(rows: seq<Token>) {
    (forall i :: 0 <= i < |rows| ==> rows[i].id > 0)
    && (forall i, j :: 0 <= i < j < |rows| ==> rows[i].id < rows[j].id)
  }

  /** The token column is unique. */
  predicate TokensDistinct(rows: seq<Token>) {
    forall i, j :: 0 <= i < j < |rows| ==> rows[i].token != rows[j].token
  }

  /** Whether some row holds this token value. */
  predicate HasToken(rows: seq<Token>, token: string) {
    exists i :: 0 <= i < |rows| && rows[i].token == token
  }

  /** The id SQLite gives the next row: one more than the largest id, 1 in an
      empty table. */
  function NextId(rows: seq<Token>): (id: nat)
    requires IdsIncreasing(rows)
    ensures id > 0
    ensures forall i :: 0 <= i < |rows| ==> rows[i].id < id
  {
    if rows == [] then 1 else rows[|rows| - 1].id + 1
  }

  /** The positions, in rowid order, of the rows of one agent. */
  function AgentPositions(rows: seq<Token>, agentId: string): (idx: seq<nat>)
    ensures forall k :: 0 <= k < |idx| ==> idx[k] < |rows| && rows[idx[k]].agentId == agentId
    ensures forall j :: 0 <= j < |rows| && rows[j].agentId == agentId ==> j in idx
    ensures Py.StrictlyIncreasing(idx)
  {
    Py.Positions(rows, (t: Token) => t.agentId == agentId)
  }

  /** query.filter(AgentToken.agent_id == agent_id).all() */
  function WithAgent(rows: seq<Token>, agentId: string): (r: seq<Token>)
    ensures |r| <= |rows|
    ensures forall t :: t in r <==> t in rows && t.agentId == agentId
  {
    if rows == [] then []
    else
      var n := |rows| - 1;
      assert rows == rows[..n] + [rows[n]];
      var init := WithAgent(rows[..n], agentId);
      if rows[n].agentId == agentId then init + [rows[n]] else init
  }

  /** The rows of one agent are the rows at that agent's positions: each
      matching row once, in rowid order, and no other row. */
  lemma {:induction false} WithAgentAt(rows: seq<Token>, agentId: string)
    ensures var idx := AgentPositions(rows, agentId);
            |WithAgent(rows, agentId)| == |idx|
            && forall k :: 0 <= k < |idx| ==> WithAgent(rows, agentId)[k] == rows[idx[k]]
  {
    if rows != [] {
      var n := |rows| - 1;
      var front := rows[..n];
      WithAgentAt(front, agentId);
      var idx0, r0 := AgentPositions(front, agentId), WithAgent(front, agentId);
      var idx, r := AgentPositions(rows, agentId), WithAgent(rows, agentId);
      if rows[n].agentId == agentId {
        assert idx == idx0 + [n];
        assert r == r0 + [rows[n]];
      } else {
        assert idx == idx0;
        assert r == r0;
      }
      forall k | 0 <= k < |idx0|
        ensures r[k] == rows[idx[k]]
      {
        assert idx[k] == idx0[k] && r[k] == r0[k];
        assert front[idx0[k]] == rows[idx0[k]];
      }
    }
  }

  /** get_agent_tokens(agent_id): a truthy agent_id filters on it, keeping
      the matching rows in rowid order, otherwise every row. */
  function Listed(rows: seq<Token>, agentId: Option<string>): (r: seq<Token>)
    ensures agentId.Some? && agentId.value != "" ==>
              var idx := AgentPositions(rows, agentId.value);
              |r| == |idx| && forall k :: 0 <= k < |idx| ==> r[k] == rows[idx[k]]
    ensures agentId.Some? && agentId.value != "" ==>
              forall t :: t in r <==> t in rows && t.agentId == agentId.value
    ensures agentId.None? || agentId.value == "" ==> r == rows
  {
    if agentId.Some? && agentId.value != "" then
      WithAgentAt(rows, agentId.value);
      WithAgent(rows, agentId.value)
    else rows
  }

  /** The rows of one agent keep the uniqueness of the token column, so the
      tokens listed for one agent are pairwise different. */
  lemma WithAgentTokensDistinct(rows: seq<Token>, agentId: string)
    requires TokensDistinct(rows)
    ensures TokensDistinct(WithAgent(rows, agentId))
  {
    WithAgentAt(rows, agentId);
    var idx := AgentPositions(rows, agentId);
    var r := WithAgent(rows, agentId);
    forall i, j | 0 <= i < j < |r|
      ensures r[i].token != r[j].token
    {
      assert idx[i] < idx[j];
    }
  }

  /** query.filter(AgentToken.id == token_id).first() */
  function FirstWithId(rows: seq<Token>, id: nat): (r: Option<Token>)
    ensures r.None? <==> forall i :: 0 <= i < |rows| ==> rows[i].id != id
    ensures r.Some? ==> r.value in rows && r.value.id == id
  {
    if rows == [] then None
    else if rows[0].id == id then Some(rows[0])
    else FirstWithId(rows[1..], id)
  }

  /** The table after db.delete of the row with this id (ids are a key). */
  function WithoutId(rows: seq<Token>, id: nat): (r: seq<Token>)
    ensures |r| <= |rows|
    ensures forall t :: t in r <==> t in rows && t.id != id
  {
    if rows == [] then []
    else (if rows[0].id != id then [rows[0]] else []) + WithoutId(rows[1..], id)
  }

  /** query.filter(agent_id == ..., token == ...).first() */
  function FirstMatch(rows: seq<Token>, agentId: string, token: string): (r: Option<Token>)
    ensures r.None? <==> forall i :: 0 <= i < |rows| ==> !(rows[i].agentId == agentId && rows[i].token == token)
    ensures r.Some? ==> r.value in rows && r.value.agentId == agentId && r.value.token == token
  {
    if rows == [] then None
    else if rows[0].agentId == agentId && rows[0].token == token then Some(rows[0])
    else FirstMatch(rows[1..], agentId, token)
  }

  /** verify_agent_token: success exactly when some row carries both the
      agent id and the token, otherwise 401 "Invalid token". */
  function Verify(rows: seq<Token>, agentId: string, token: string): (r: Result<string>)
    ensures r.Success? <==> exists t :: t in rows && t.agentId == agentId && t.token == token
    ensures r.Success? ==> r.value == "Token verified"
    ensures r.Failure? ==> r.error == HttpError(401, "Invalid token")
  {
    var m := FirstMatch(rows, agentId, token);
    if m.None? then
      assert forall t :: t in rows ==> !(t.agentId == agentId && t.token == token) by {
        forall t | t in rows
          ensures !(t.agentId == agentId && t.token == token)
        {
          var i :| 0 <= i < |rows| && rows[i] == t;
        }
      }
      Failure(HttpError(401, "Invalid token"))
    else Success("Token verified")
  }

  /** Once the row with a token is deleted, that token no longer verifies
      for its agent: the token column is unique, so no other row carries
      it. */
  lemma DeleteThenVerifyFails(rows: seq<Token>, t: Token)
    requires TokensDistinct(rows)
    requires t in rows
    ensures t !in WithoutId(rows, t.id)
    ensures Verify(WithoutId(rows, t.id), t.agentId, t.token).Failure?
  {
    var after := WithoutId(rows, t.id);
    var i :| 0 <= i < |rows| && rows[i] == t;
    forall u | u in after && u.agentId == t.agentId
      ensures u.token != t.token
    {
      var j :| 0 <= j < |rows| && rows[j] == u;
      assert u.id != t.id;
      assert i != j;
    }
  }

  /** The in-memory AgentToken table. */
  class TokenTable {
    var rows: seq<Token>

    /** Rowid order and the unique token column. */
    ghost predicate Valid()
      reads this
    {
      IdsIncreasing(rows) && TokensDistinct(rows)
    }

    /** A freshly created table is empty. */
    constructor ()
      ensures rows == [] && Valid()
    {
      rows := [];
    }

    /** GET /admin/tokens[?agent_id=...] */
    function List(agentId: Option<string>): (r: seq<Token>)
      reads this
      ensures agentId.Some? && agentId.value != "" ==>
                var idx := AgentPositions(rows, agentId.value);
                |r| == |idx| && forall k :: 0 <= k < |idx| ==> r[k] == rows[idx[k]]
      ensures agentId.Some? && agentId.value != "" ==>
                forall t :: t in r <==> t in rows && t.agentId == agentId.value
      ensures agentId.None? || agentId.value == "" ==> r == rows
    {
      Listed(rows, agentId)
    }

    /** POST /admin/tokens: a row with the next id, the given agent id and
        name, a generated token and the creation time. A token value already
        in the table breaks the unique constraint at commit, and nothing is
        stored. */
    method Create(agentId: string, name: string, draw: nat -> nat, createdAt: string) returns (r: Result<Token>)
      requires Valid()
      modifies this
      ensures Valid()
      ensures var token := GenerateToken(TokenLength, draw);
              if HasToken(old(rows), token) then
                r == Failure(IntegrityError("UNIQUE constraint failed: agent_tokens.token")) && rows == old(rows)
              else
                r == Success(Token(NextId(old(rows)), agentId, name, token, createdAt)) && rows == old(rows) + [r.value]
      ensures r.Success? ==> |r.value.token| == TokenLength && Verify(rows, agentId, r.value.token).Success?
      ensures r.Success? ==> forall t :: t in old(rows) ==> t.id != r.value.id
    {
      var token := GenerateToken(TokenLength, draw);
      if HasToken(rows, token) {
        return Failure(IntegrityError("UNIQUE constraint failed: agent_tokens.token"));
      }
      var row := Token(NextId(rows), agentId, name, token, createdAt);
      rows := rows + [row];
      r := Success(row);
      assert row in rows;
    }

    /** DELETE /admin/tokens/{token_id}: 404 "Token not found" leaves the table
        alone; otherwise the row is gone and everything else stays. */
    method Delete(id: nat) returns (r: Result<string>)
      requires Valid()
      modifies this
      ensures Valid()
      ensures FirstWithId(old(rows), id).None? ==> r == Failure(HttpError(404, "Token not found")) && rows == old(rows)
      ensures FirstWithId(old(rows), id).Some? ==>
                r == Success("Token deleted") && rows == WithoutId(old(rows), id)
                && FirstWithId(old(rows), id).value !in rows
    {
      var found := FirstWithId(rows, id);
      if found.None? {
        return Failure(HttpError(404, "Token not found"));
      }
      WithoutIdIncreasing(rows, id);
      WithoutIdDistinct(rows, id);
      rows := WithoutId(rows, id);
      r := Success("Token deleted");
    }

    /** POST /admin/verify_token */
    function VerifyToken(agentId: string, token: string): (r: Result<string>)
      reads this
      ensures r.Success? <==> exists t :: t in rows && t.agentId == agentId && t.token == token
      ensures r.Failure? ==> r.error == HttpError(401, "Invalid token")
    {
      Verify(rows, agentId, token)
    }
  }

  /** A row with a positive id below every id of an ordered table can go in
      front of it. */
  lemma IncreasingCons(x: Token, rest: seq<Token>)
    requires IdsIncreasing(rest) && x.id > 0
    requires forall u | u in rest :: x.id < u.id
    ensures IdsIncreasing([x] + rest)
  {
    var r := [x] + rest;
    forall i, j | 0 <= i < j < |r|
      ensures r[i].id < r[j].id
    {
      assert r[j] == rest[j - 1] && r[j] in rest;
      if i > 0 {
        assert r[i] == rest[i - 1];
      }
    }
  }

  /** Deleting keeps the remaining rows in rowid order. */
  lemma {:induction false} WithoutIdIncreasing(rows: seq<Token>, id: nat)
    requires IdsIncreasing(rows)
    ensures IdsIncreasing(WithoutId(rows, id))
    decreases |rows|
  {
    if rows != [] {
      var tail := rows[1..];
      assert IdsIncreasing(tail) by {
        forall i, j | 0 <= i < j < |tail|
          ensures tail[i].id < tail[j].id
        {
          assert tail[i] == rows[i + 1] && tail[j] == rows[j + 1];
        }
      }
      WithoutIdIncreasing(tail, id);
      var rest := WithoutId(tail, id);
      if rows[0].id != id {
        forall u | u in rest
          ensures rows[0].id < u.id
        {
          var k :| 0 <= k < |tail| && tail[k] == u;
          assert rows[k + 1] == u;
        }
        IncreasingCons(rows[0], rest);
      } else {
        assert WithoutId(rows, id) == rest;
      }
    }
  }

  /** Deleting keeps the token column unique. */
  lemma {:induction false} WithoutIdDistinct(rows: seq<Token>, id: nat)
    requires TokensDistinct(rows)
    ensures TokensDistinct(WithoutId(rows, id))
    decreases |rows|
  {
    if rows != [] {
      var tail := rows[1..];
      assert TokensDistinct(tail) by {
        forall i, j | 0 <= i < j < |tail|
          ensures tail[i].token != tail[j].token
        {
          assert tail[i] == rows[i + 1] && tail[j] == rows[j + 1];
        }
      }
      WithoutIdDistinct(tail, id);
      var rest := WithoutId(tail, id);
      if rows[0].id != id {
        forall u | u in rest
          ensures rows[0].token != u.token
        {
          var k :| 0 <= k < |tail| && tail[k] == u;
          assert rows[k + 1] == u;
        }
        var r := [rows[0]] + rest;
        forall i, j | 0 <= i < j < |r|
          ensures r[i].token != r[j].token
        {
          assert r[j] == rest[j - 1] && r[j] in rest;
          if i > 0 {
            assert r[i] == rest[i - 1];
          }
        }
        assert TokensDistinct(r);
      } else {
        assert WithoutId(rows, id) == rest;
      }
    }
  }
}
