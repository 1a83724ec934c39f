/**
  The survey's tables (app/models.py): the closed enumerations, one record per
  row kind, the uniqueness and foreign-key constraints the database enforces,
  and the cascade that removes a session's votes with the session.

  A table is a map from the row's primary key to the rest of the row.
  Columns the schema leaves nullable are `Option`s. As in PostgreSQL, a
  unique constraint never treats two NULLs as equal, so a row whose key
  columns hold a NULL clashes with no other row.
*/
module Models {
  import opened Wrappers
  import opened Uuids
  import opened Sequences

  /** Server time (`now()`), abstract. */
  type Time = int

  // ---------------------------------------------------------------- enumerations

  /** The models whose images are compared. */
  datatype ModelName = Gpt5 | Gemini25

  /** A vote's outcome: one of the models, or a tie (never an image's model). */
  datatype Winner = Chose(model: ModelName) | Tie

  datatype SessionStatus = Active | Completed | Abandoned

  function ModelValue(m: ModelName): string
  {
    match m
    case Gpt5 => "gpt5"
    case Gemini25 => "gemini25"
  }

  function WinnerValue(w: Winner): string
  {
    match w
    case Chose(m) => ModelValue(m)
    case Tie => "tie"
  }

  function StatusValue(s: SessionStatus): string
  {
    match s
    case Active => "active"
    case Completed => "completed"
    case Abandoned => "abandoned"
  }

  /** `ModelName(s)`: lookup by value; None where Python raises ValueError. */
  function ParseModelName(s: string): (r: Option<ModelName>)
    ensures r.Some? ==> ModelValue(r.value) == s
    ensures r.None? ==> forall m: ModelName :: ModelValue(m) != s
  {
    if s == "gpt5" then Some(Gpt5)
    else if s == "gemini25" then Some(Gemini25)
    else None
  }

  /** `Winner(s)`: lookup by value; None where Python raises ValueError. */
  function ParseWinner(s: string): (r: Option<Winner>)
    ensures r.Some? ==> WinnerValue(r.value) == s
    ensures r.None? ==> forall w: Winner :: WinnerValue(w) != s
  {
    if s == "tie" then Some(Tie)
    else match ParseModelName(s)
      case Some(m) => Some(Chose(m))
      case None => None
  }

  function ParseStatus(s: string): (r: Option<SessionStatus>)
    ensures r.Some? ==> StatusValue(r.value) == s
    ensures r.None? ==> forall t: SessionStatus :: StatusValue(t) != s
  {
    if s == "active" then Some(Active)
    else if s == "completed" then Some(Completed)
    else if s == "abandoned" then Some(Abandoned)
    else None
  }

  /**
    Winner's values are exactly ModelName's values plus "tie", and "tie"
    names no model.
  */
  lemma WinnerExtendsModelName(s: string)
    ensures ParseWinner(s).Some? <==> ParseModelName(s).Some? || s == "tie"
    ensures ParseModelName(s).Some? ==> ParseWinner(s) == Some(Chose(ParseModelName(s).value))
    ensures ParseModelName("tie").None?
  {
  }

  // ---------------------------------------------------------------- rows

  datatype Prompt = Prompt(text: string, category: Option<string>)

  datatype Image = Image(promptId: Option<string>, model: Option<ModelName>, url: Option<string>)

  datatype Pair = Pair(promptId: Option<string>, imageA: Uuid, imageB: Uuid)

  datatype Session = Session(
    createdAt: Time,
    lastActivity: Time,
    completedAt: Option<Time>,
    status: SessionStatus)

  datatype Vote = Vote(
    sessionId: Uuid,
    pairId: Uuid,
    winner: Winner,
    left: ModelName,
    reactionTimeMs: Option<int>,
    createdAt: Time)

  /** A session row as inserted with only its id given: every other column takes its default. */
  function NewSession(now: Time): (s: Session)
    ensures s.status == Active && s.completedAt.None?
    ensures s.createdAt == s.lastActivity == now
  {
    Session(now, now, None, Active)
  }

  // ---------------------------------------------------------------- constraints

  /** uq_images_prompt_model */
  ghost predicate UniqueImages(images: map<Uuid, Image>)
  {
    forall i, j ::
      i in images && j in images && i != j && images[i].promptId.Some? && images[i].model.Some? ==>
        (images[i].promptId, images[i].model) != (images[j].promptId, images[j].model)
  }

  /** uq_pairs_prompt */
  ghost predicate UniquePairs(pairs: map<Uuid, Pair>)
  {
    forall i, j :: i in pairs && j in pairs && i != j && pairs[i].promptId.Some? ==>
      pairs[i].promptId != pairs[j].promptId
  }

  /** uq_votes_session_pair */
  ghost predicate UniqueVotes(votes: map<Uuid, Vote>)
  {
    forall i, j :: i in votes && j in votes && i != j ==>
      (votes[i].sessionId, votes[i].pairId) != (votes[j].sessionId, votes[j].pairId)
  }

  ghost predicate ForeignKeys(
    prompts: map<string, Prompt>, images: map<Uuid, Image>, pairs: map<Uuid, Pair>,
    sessions: map<Uuid, Session>, votes: map<Uuid, Vote>)
  {
    && (forall i :: i in images && images[i].promptId.Some? ==> images[i].promptId.value in prompts)
    && (forall p :: p in pairs && pairs[p].promptId.Some? ==> pairs[p].promptId.value in prompts)
    && (forall p :: p in pairs ==> pairs[p].imageA in images && pairs[p].imageB in images)
    && (forall v :: v in votes ==> votes[v].sessionId in sessions && votes[v].pairId in pairs)
  }

  /** Every constraint of the schema holds. */
  ghost predicate Consistent(
    prompts: map<string, Prompt>, images: map<Uuid, Image>, pairs: map<Uuid, Pair>,
    sessions: map<Uuid, Session>, votes: map<Uuid, Vote>)
  {
    && UniqueImages(images)
    && UniquePairs(pairs)
    && UniqueVotes(votes)
    && ForeignKeys(prompts, images, pairs, sessions, votes)
  }

  /** The pairs session `s` has voted on. */
  function VotedPairs(votes: map<Uuid, Vote>, s: Uuid): (r: set<Uuid>)
    ensures forall p :: p in r <==> exists v :: v in votes && votes[v].sessionId == s && votes[v].pairId == p
  {
    set v | v in votes && votes[v].sessionId == s :: votes[v].pairId
  }

  /** The vote rows of session `s`. */
  ghost function SessionVotes(votes: map<Uuid, Vote>, s: Uuid): set<Uuid>
  {
    set v | v in votes && votes[v].sessionId == s
  }

  /**
    Under uq_votes_session_pair a session has voted on as many distinct
    pairs as it has vote rows: no two of its rows name the same pair.
  */
  lemma VotedPairsCount(votes: map<Uuid, Vote>, s: Uuid)
    requires UniqueVotes(votes)
    ensures |VotedPairs(votes, s)| == |SessionVotes(votes, s)|
  {
    var rows := SessionVotes(votes, s);
    var pairOf := (v: Uuid) => if v in votes then votes[v].pairId else v;
    forall a, b | a in rows && b in rows && pairOf(a) == pairOf(b) ensures a == b {
      assert (votes[a].sessionId, votes[a].pairId) == (votes[b].sessionId, votes[b].pairId);
    }
    forall p | p in VotedPairs(votes, s) ensures exists v :: v in rows && pairOf(v) == p {
      var v :| v in votes && votes[v].sessionId == s && votes[v].pairId == p;
      assert v in rows && pairOf(v) == p;
    }
    InjectiveImage(rows, pairOf, VotedPairs(votes, s));
  }

  // ---------------------------------------------------------------- inserting a vote

  /** Why the database refuses an INSERT. */
  datatype InsertError = UniqueViolation | ForeignKeyViolation | IntegerOutOfRange

  /** The range of a PostgreSQL `integer` column (reaction_time_ms). */
  const IntMin: int := -0x8000_0000
  const IntMax: int := 0x7fff_ffff

  /** A value the 32-bit column reaction_time_ms can hold (NULL included). */
  predicate InRange(t: Option<int>)
  {
    t.None? || IntMin <= t.value <= IntMax
  }

  /**
    `INSERT INTO votes`: the value of the 32-bit column is converted first;
    then the primary key and uq_votes_session_pair are checked (both are
    unique-constraint violations); the foreign keys are checked last.
  */
  function InsertVote(
    sessions: map<Uuid, Session>, pairs: map<Uuid, Pair>, votes: map<Uuid, Vote>,
    id: Uuid, v: Vote): (r: Result<map<Uuid, Vote>, InsertError>)
    ensures r.Ok? <==>
      && InRange(v.reactionTimeMs) && id !in votes && v.pairId !in VotedPairs(votes, v.sessionId)
      && v.sessionId in sessions && v.pairId in pairs
    ensures r == Err(IntegerOutOfRange) <==> !InRange(v.reactionTimeMs)
    ensures r == Err(UniqueViolation) <==>
      InRange(v.reactionTimeMs) && (id in votes || v.pairId in VotedPairs(votes, v.sessionId))
    ensures r.Ok? ==> r.value == votes[id := v]
    ensures r.Ok? && UniqueVotes(votes) ==> UniqueVotes(r.value)
  {
    if !InRange(v.reactionTimeMs) then Err(IntegerOutOfRange)
    else if id in votes || v.pairId in VotedPairs(votes, v.sessionId) then Err(UniqueViolation)
    else if v.sessionId !in sessions || v.pairId !in pairs then Err(ForeignKeyViolation)
    else Ok(votes[id := v])
  }

  /** A successful insert keeps every constraint of the schema. */
  lemma InsertVoteKeepsConsistent(
    prompts: map<string, Prompt>, images: map<Uuid, Image>, pairs: map<Uuid, Pair>,
    sessions: map<Uuid, Session>, votes: map<Uuid, Vote>, id: Uuid, v: Vote)
    requires Consistent(prompts, images, pairs, sessions, votes)
    requires InsertVote(sessions, pairs, votes, id, v).Ok?
    ensures Consistent(prompts, images, pairs, sessions, InsertVote(sessions, pairs, votes, id, v).value)
  {
  }

  /** After the insert, the session has voted on exactly one more pair: the new row's. */
  lemma InsertVoteAddsPair(
    sessions: map<Uuid, Session>, pairs: map<Uuid, Pair>, votes: map<Uuid, Vote>, id: Uuid, v: Vote, s: Uuid)
    requires InsertVote(sessions, pairs, votes, id, v).Ok?
    ensures VotedPairs(InsertVote(sessions, pairs, votes, id, v).value, s)
         == if s == v.sessionId then VotedPairs(votes, s) + {v.pairId} else VotedPairs(votes, s)
  {
    var after := votes[id := v];
    forall p
      ensures p in VotedPairs(after, s) <==> p in (if s == v.sessionId then VotedPairs(votes, s) + {v.pairId} else VotedPairs(votes, s))
    {
      if p in VotedPairs(votes, s) {
        var w :| w in votes && votes[w].sessionId == s && votes[w].pairId == p;
        assert w in after && after[w] == votes[w];
      }
      if p in VotedPairs(after, s) {
        var w :| w in after && after[w].sessionId == s && after[w].pairId == p;
        if w != id { assert w in votes && votes[w] == after[w]; }
      }
      if s == v.sessionId && p == v.pairId {
        assert after[id].sessionId == s && after[id].pairId == p;
      }
    }
  }

  // ---------------------------------------------------------------- cascade

  /** `DELETE FROM sessions WHERE id = s`: ON DELETE CASCADE takes the session's votes along. */
  function DeleteSession(sessions: map<Uuid, Session>, votes: map<Uuid, Vote>, s: Uuid)
    : (r: (map<Uuid, Session>, map<Uuid, Vote>))
    ensures r.0.Keys == sessions.Keys - {s}
    ensures forall k :: k in r.0 ==> r.0[k] == sessions[k]
    ensures forall v :: v in r.1 ==> r.1[v].sessionId != s
    ensures forall v :: v in votes && votes[v].sessionId != s ==> v in r.1 && r.1[v] == votes[v]
    ensures forall v :: v in r.1 ==> v in votes
  {
    (sessions - {s}, map v | v in votes && votes[v].sessionId != s :: votes[v])
  }

  /** Deleting a session, cascade included, keeps every constraint of the schema. */
  lemma DeleteSessionKeepsConsistent(
    prompts: map<string, Prompt>, images: map<Uuid, Image>, pairs: map<Uuid, Pair>,
    sessions: map<Uuid, Session>, votes: map<Uuid, Vote>, s: Uuid)
    requires Consistent(prompts, images, pairs, sessions, votes)
    ensures var (sessions', votes') := DeleteSession(sessions, votes, s);
            && Consistent(prompts, images, pairs, sessions', votes')
            && VotedPairs(votes', s) == {}
  {
  }
}
