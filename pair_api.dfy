/**
  The pair-mode request handlers of app/main.py: start a session, fetch the
  next pair a session has not voted on, and cast a vote. The database is the
  `Survey` object's five tables; HTTP errors are `HttpError` values; the two
  `random.choice` calls are nondeterministic choices and `uuid4()` values are
  parameters.
*/
module PairApi {
  import opened Wrappers
  import opened Uuids
  import opened Models

  /** The `HTTPException` status codes raised: 400, 404, 409 and 500. */
  datatype HttpError = BadRequest | NotFound | Conflict | InternalError

  /** `{"url": ..., "model": ...}` for one side of the comparison. */
  datatype ImageOut = ImageOut(url: Option<string>, model: string)

  datatype NextPairResponse =
    | Done(totalPairs: nat, pairsCompleted: nat, pairsRemaining: nat)
    | Next(pairId: string, promptId: string, promptText: string,
           left: ImageOut, right: ImageOut,
           totalPairs: nat, pairsCompleted: nat, pairsRemaining: nat)

  /** The body of POST /votes. */
  datatype VoteCreate = VoteCreate(
    sessionId: string,
    pairId: string,
    winnerModel: string,
    leftModel: string,
    reactionTimeMs: Option<int>)

  /** The pairs session `s` has not voted on yet. */
  function Unvoted(pairs: map<Uuid, Pair>, votes: map<Uuid, Vote>, s: Uuid): (r: set<Uuid>)
    ensures r <= pairs.Keys
    ensures forall p :: p in r <==> p in pairs && p !in VotedPairs(votes, s)
  {
    pairs.Keys - VotedPairs(votes, s)
  }

  /** Reading `image.model.value` raises when the column is NULL. */
  function Describe(img: Image): Option<ImageOut>
  {
    match img.model
    case Some(m) => Some(ImageOut(img.url, ModelValue(m)))
    case None => None
  }

  /**
    The vote row a request describes, or None when one of its two ids is not a
    UUID or one of its two enum values is not a member of its enumeration.
  */
  function ParseVote(vote: VoteCreate, now: Time): (r: Option<Vote>)
    ensures r.Some? <==>
      && Parse(vote.sessionId).Some? && Parse(vote.pairId).Some?
      && ParseWinner(vote.winnerModel).Some? && ParseModelName(vote.leftModel).Some?
    ensures r.Some? ==>
      && Parse(vote.sessionId) == Some(r.value.sessionId)
      && Parse(vote.pairId) == Some(r.value.pairId)
      && WinnerValue(r.value.winner) == vote.winnerModel
      && ModelValue(r.value.left) == vote.leftModel
      && r.value.reactionTimeMs == vote.reactionTimeMs
  {
    match (Parse(vote.sessionId), Parse(vote.pairId))
    case (Some(s), Some(p)) =>
      (match (ParseWinner(vote.winnerModel), ParseModelName(vote.leftModel))
       case (Some(w), Some(l)) => Some(Vote(s, p, w, l, vote.reactionTimeMs, now))
       case _ => None)
    case _ => None
  }

  /**
    Once a session has voted on every pair, it stays done: a later vote by any
    session leaves its set of unvoted pairs empty, and a vote by the session
    itself removes exactly the pair voted on.
  */
  lemma {:induction false} VoteShrinksUnvoted(
    sessions: map<Uuid, Session>, pairs: map<Uuid, Pair>, votes: map<Uuid, Vote>, id: Uuid, v: Vote, s: Uuid)
    requires InsertVote(sessions, pairs, votes, id, v).Ok?
    ensures Unvoted(pairs, InsertVote(sessions, pairs, votes, id, v).value, s)
         == if s == v.sessionId then Unvoted(pairs, votes, s) - {v.pairId} else Unvoted(pairs, votes, s)
  {
    InsertVoteAddsPair(sessions, pairs, votes, id, v, s);
  }

  /**
    In a consistent store the progress counter `pairs_completed` is the number
    of distinct pairs the session has voted on.
  */
  lemma CompletedCountsVotedPairs(
    prompts: map<string, Prompt>, images: map<Uuid, Image>, pairs: map<Uuid, Pair>,
    sessions: map<Uuid, Session>, votes: map<Uuid, Vote>, s: Uuid)
    requires Consistent(prompts, images, pairs, sessions, votes)
    ensures |pairs| - |Unvoted(pairs, votes, s)| == |VotedPairs(votes, s)|
    ensures |pairs| - |Unvoted(pairs, votes, s)| == |SessionVotes(votes, s)|
  {
    assert VotedPairs(votes, s) <= pairs.Keys by {
      assert ForeignKeys(prompts, images, pairs, sessions, votes);
    }
    UnvotedCount(pairs, votes, s);
    VotedPairsCount(votes, s);
  }

  /** The pairs split into the voted and the unvoted ones. */
  lemma UnvotedCount(pairs: map<Uuid, Pair>, votes: map<Uuid, Vote>, s: Uuid)
    requires VotedPairs(votes, s) <= pairs.Keys
    ensures |pairs| - |Unvoted(pairs, votes, s)| == |VotedPairs(votes, s)|
  {
    var voted := VotedPairs(votes, s);
    assert pairs.Keys == Unvoted(pairs, votes, s) + voted;
    assert Unvoted(pairs, votes, s) !! voted;
  }

  class Survey {
    var prompts: map<string, Prompt>
    var images: map<Uuid, Image>
    var pairs: map<Uuid, Pair>
    var sessions: map<Uuid, Session>
    var votes: map<Uuid, Vote>

    ghost predicate Valid()
      reads this
    {
      Consistent(prompts, images, pairs, sessions, votes)
    }

    /** A consistent catalog, with no sessions and no votes yet. */
    constructor (prompts: map<string, Prompt>, images: map<Uuid, Image>, pairs: map<Uuid, Pair>)
      requires Consistent(prompts, images, pairs, map[], map[])
      ensures Valid()
      ensures this.prompts == prompts && this.images == images && this.pairs == pairs
      ensures sessions == map[] && votes == map[]
    {
      this.prompts, this.images, this.pairs := prompts, images, pairs;
      sessions, votes := map[], map[];
    }

    /** Pair `p` resolves to a prompt and two images that all can be shown. */
    ghost predicate Presentable(p: Uuid)
      reads this
      requires p in pairs
    {
      var pair := pairs[p];
      && pair.promptId.Some? && pair.promptId.value in prompts
      && pair.imageA in images && pair.imageB in images
      && Describe(images[pair.imageA]).Some? && Describe(images[pair.imageB]).Some?
    }

    /**
      In a consistent store the foreign keys make every pair's prompt (when
      set) and both images exist, so a pair cannot be shown exactly when its
      prompt_id is NULL or one of its images has a NULL model.
    */
    lemma UnpresentableIffNull(p: Uuid)
      requires Valid() && p in pairs
      ensures pairs[p].imageA in images && pairs[p].imageB in images
      ensures !Presentable(p) <==>
        || pairs[p].promptId.None?
        || images[pairs[p].imageA].model.None?
        || images[pairs[p].imageB].model.None?
    {
      assert ForeignKeys(prompts, images, pairs, sessions, votes);
    }

    /** `resp` shows pair `p`: its prompt, and its two images in one of the two orders. */
    ghost predicate Shows(p: Uuid, resp: NextPairResponse)
      reads this
      requires resp.Next?
    {
      && p in pairs
      && pairs[p].promptId == Some(resp.promptId)
      && resp.promptId in prompts && resp.promptText == prompts[resp.promptId].text
      && pairs[p].imageA in images && pairs[p].imageB in images
      && var a, b := Describe(images[pairs[p].imageA]), Describe(images[pairs[p].imageB]);
         || (a == Some(resp.left) && b == Some(resp.right))
         || (a == Some(resp.right) && b == Some(resp.left))
    }

    /** POST /session/start, with `sid` the value `uuid4()` drew. */
    method StartSession(sid: Uuid, now: Time) returns (r: Result<string, HttpError>)
      modifies this`sessions
      ensures sid in old(sessions) ==> r == Err(InternalError) && sessions == old(sessions)
      ensures sid !in old(sessions) ==> r.Ok? && sessions == old(sessions)[sid := NewSession(now)]
      ensures r.Ok? ==> Parse(r.value) == Some(sid)
      ensures old(Valid()) ==> Valid()
    {
      if sid in sessions {
        // the primary key refuses the row; the IntegrityError is not caught
        return Err(InternalError);
      }
      sessions := sessions[sid := NewSession(now)];
      ParseFormat(sid);
      return Ok(Format(sid));
    }

    /** GET /pairs/next: reads the tables and changes none of them. */
    method NextPair(sessionId: string) returns (r: Result<NextPairResponse, HttpError>)
      ensures r == Err(BadRequest) <==> Parse(sessionId).None?
      ensures r == Err(NotFound) <==> Parse(sessionId).Some? && Parse(sessionId).value !in sessions
      ensures r.Ok? || r == Err(InternalError) ==> Parse(sessionId).Some? && Parse(sessionId).value in sessions
      ensures r.Ok? ==>
        var unvoted := Unvoted(pairs, votes, Parse(sessionId).value);
        && r.value.totalPairs == |pairs|
        && r.value.pairsRemaining == |unvoted|
        && r.value.pairsCompleted + r.value.pairsRemaining == |pairs|
        && (r.value.Done? <==> unvoted == {})
      ensures r.Ok? && r.value.Next? ==>
        && Parse(r.value.pairId).Some?
        && Parse(r.value.pairId).value in Unvoted(pairs, votes, Parse(sessionId).value)
        && Shows(Parse(r.value.pairId).value, r.value)
      ensures r == Err(InternalError) ==>
        exists p :: p in Unvoted(pairs, votes, Parse(sessionId).value) && !Presentable(p)
      ensures Parse(sessionId).Some? && Parse(sessionId).value in sessions &&
              (forall p :: p in Unvoted(pairs, votes, Parse(sessionId).value) ==> Presentable(p))
              ==> r.Ok?
      ensures Valid() && r == Err(InternalError) ==>
        exists p :: p in Unvoted(pairs, votes, Parse(sessionId).value) &&
          (|| pairs[p].promptId.None?
           || images[pairs[p].imageA].model.None?
           || images[pairs[p].imageB].model.None?)
    {
      var parsed := Parse(sessionId);
      if parsed.None? {
        return Err(BadRequest);
      }
      var sid := parsed.value;
      if sid !in sessions {
        return Err(NotFound);
      }
      var unvoted := pairs.Keys - VotedPairs(votes, sid);
      var total := |pairs|;
      var remaining := |unvoted|;
      assert |pairs.Keys| == |unvoted| + |pairs.Keys * VotedPairs(votes, sid)| by {
        assert pairs.Keys == unvoted + pairs.Keys * VotedPairs(votes, sid);
        assert unvoted !! pairs.Keys * VotedPairs(votes, sid);
      }
      var completed := total - remaining;
      if unvoted == {} {
        return Ok(Done(total, completed, 0));
      }
      var p :| p in unvoted;
      var pair := pairs[p];
      assert p in Unvoted(pairs, votes, sid);
      if pair.promptId.None? || pair.promptId.value !in prompts {
        assert !Presentable(p);
        if Valid() { UnpresentableIffNull(p); }
        return Err(InternalError);
      }
      if pair.imageA !in images || pair.imageB !in images {
        assert !Presentable(p);
        if Valid() { UnpresentableIffNull(p); }
        return Err(InternalError);
      }
      var imageA, imageB := images[pair.imageA], images[pair.imageB];
      var leftIsA :| leftIsA in {true, false};
      var left, right := if leftIsA then imageA else imageB, if leftIsA then imageB else imageA;
      if left.model.None? || right.model.None? {
        assert !Presentable(p);
        if Valid() { UnpresentableIffNull(p); }
        return Err(InternalError);
      }
      ParseFormat(p);
      r := Ok(Next(Format(p), pair.promptId.value, prompts[pair.promptId.value].text,
                   ImageOut(left.url, ModelValue(left.model.value)),
                   ImageOut(right.url, ModelValue(right.model.value)),
                   total, completed, remaining));
    }

    /**
      POST /votes, with `rowId` the value `uuid4()` drew for the new row's
      primary key. Any refusal of the insert is rolled back; it becomes 409
      when the database names a unique constraint and 500 otherwise.
    */
    method CastVote(vote: VoteCreate, rowId: Uuid, now: Time) returns (r: Result<(), HttpError>)
      modifies this`votes
      ensures r == Err(BadRequest) <==> ParseVote(vote, now).None?
      ensures ParseVote(vote, now).Some? ==>
        var outcome := InsertVote(sessions, pairs, old(votes), rowId, ParseVote(vote, now).value);
        && (r.Ok? <==> outcome.Ok?)
        && (r.Ok? ==> votes == outcome.value)
        && (r == Err(Conflict) <==> outcome == Err(UniqueViolation))
        && (r == Err(InternalError) <==> outcome.Err? && outcome.error != UniqueViolation)
      ensures !r.Ok? ==> votes == old(votes)
      ensures ParseVote(vote, now).Some? &&
              ParseVote(vote, now).value.pairId in VotedPairs(old(votes), ParseVote(vote, now).value.sessionId)
              ==> r.Err? && votes == old(votes)
      ensures ParseVote(vote, now).Some? && InRange(vote.reactionTimeMs) &&
              ParseVote(vote, now).value.pairId in VotedPairs(old(votes), ParseVote(vote, now).value.sessionId)
              ==> r == Err(Conflict)
      ensures ParseVote(vote, now).Some? && InRange(vote.reactionTimeMs) && rowId !in old(votes) &&
              ParseVote(vote, now).value.pairId !in VotedPairs(old(votes), ParseVote(vote, now).value.sessionId) &&
              ParseVote(vote, now).value.sessionId in sessions && ParseVote(vote, now).value.pairId in pairs
              ==> r.Ok? && votes == old(votes)[rowId := ParseVote(vote, now).value]
      ensures old(Valid()) ==> Valid()
    {
      var row := ParseVote(vote, now);
      if row.None? {
        return Err(BadRequest);
      }
      var outcome := InsertVote(sessions, pairs, votes, rowId, row.value);
      match outcome
      case Ok(table) =>
        if Valid() {
          InsertVoteKeepsConsistent(prompts, images, pairs, sessions, votes, rowId, row.value);
        }
        votes := table;
        r := Ok(());
      case Err(UniqueViolation) =>
        r := Err(Conflict);
      case Err(_) =>
        r := Err(InternalError);
    }
  }
}
