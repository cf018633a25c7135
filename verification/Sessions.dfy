// Refresh-token rotation of app/routers/auth/auth.py: what the Redis keys say about a refresh token is
// exactly what its whole history says, for as long as the token itself is valid.

module Sessions {

  /** Microseconds; the exp claim of a token counts whole seconds. */
  type Time = int

  const SECOND: Time := 1_000_000
  const WEEK: Time := 7 * 24 * 60 * 60 * SECOND
  const GRACE: Time := 30 * SECOND

  datatype Token = Token(user: nat, jti: nat, exp: Time)

  /** session:{user}:{jti}, rotated:{user}:{jti} and rotated_grace:{user}:{jti} */
  datatype Key = Session(user: nat, jti: nat) | Rotated(user: nat, jti: nat) | RotatedGrace(user: nat, jti: nat)

  /** Redis with time to live: a key is there until its expiry. */
  type Redis = map<Key, Time>

  predicate There(redis: Redis, key: Key, now: Time) {
    key in redis && now < redis[key]
  }

  /** datetime to exp claim: the fraction of a second is dropped. */
  function Claim(t: Time): Time {
    t - t % SECOND
  }

  /** How a refresh token ended, if it did: rotated, or taken away by logout, revocation, wipe or a refused user. */
  datatype Fate = Alive | RotatedAt(at: Time) | Dropped

  datatype Life = Life(user: nat, exp: Time, fate: Fate)

  type History = map<nat, Life>

  datatype Verdict = Rotates | Rejects | Wipes

  /** What should happen to a token that is presented now, judged by its history alone. */
  function Judge(life: Life, now: Time): Verdict {
    match life.fate
    case Alive => Rotates
    case Dropped => Rejects
    case RotatedAt(at) => if now < at + GRACE then Rejects else Wipes
  }

  /** Every live token of the user is dropped. */
  function Wiped(history: History, user: nat): History {
    map j | j in history ::
      if history[j].user == user && history[j].fate.Alive? then history[j].(fate := Dropped) else history[j]
  }

  /** A token that has not expired: its keys tell its fate. */
  predicate KeysTell(redis: Redis, jti: nat, life: Life) {
    match life.fate
    case Alive =>
      && Session(life.user, jti) in redis && redis[Session(life.user, jti)] >= life.exp
      && Rotated(life.user, jti) !in redis
    case RotatedAt(at) =>
      && Session(life.user, jti) !in redis
      && Rotated(life.user, jti) in redis && redis[Rotated(life.user, jti)] >= life.exp
      && RotatedGrace(life.user, jti) in redis && redis[RotatedGrace(life.user, jti)] == at + GRACE
    case Dropped =>
      Session(life.user, jti) !in redis && Rotated(life.user, jti) !in redis
  }

  /** The order in which the refresh handler reads the keys. */
  function ReadKeys(redis: Redis, user: nat, jti: nat, now: Time): Verdict {
    if There(redis, Session(user, jti), now) then Rotates
    else if There(redis, Rotated(user, jti), now) && !There(redis, RotatedGrace(user, jti), now) then Wipes
    else Rejects
  }

  /** Up to its own expiry, a token's keys give the verdict of its history. */
  lemma KeysGiveHistory(redis: Redis, jti: nat, life: Life, now: Time)
    requires KeysTell(redis, jti, life) && now < life.exp
    ensures ReadKeys(redis, life.user, jti, now) == Judge(life, now)
  {}

  /** No key speaks of a token that was never issued to that user. */
  predicate KeyKnown(key: Key, history: History) {
    key.jti in history && history[key.jti].user == key.user
  }

  /** Redis and the history agree on every token, and no key speaks of an unknown one. */
  ghost predicate Agree(redis: Redis, history: History) {
    && (forall j :: j in history ==> KeysTell(redis, j, history[j]))
    && (forall k :: k in redis ==> KeyKnown(k, history))
  }

  /** Writing the two markers is what turns a taken token into a rotated one. */
  lemma MarkersTell(redis: Redis, history: History, jti: nat, expiry: Time, at: Time)
    requires Agree(redis, history) && jti in history && history[jti].fate.Dropped? && expiry >= history[jti].exp
    ensures var life := history[jti];
      Agree(redis[Rotated(life.user, jti) := expiry][RotatedGrace(life.user, jti) := at + GRACE],
            history[jti := life.(fate := RotatedAt(at))])
  {
    var life := history[jti];
    var redis' := redis[Rotated(life.user, jti) := expiry][RotatedGrace(life.user, jti) := at + GRACE];
    forall j | j in history && j != jti ensures KeysTell(redis', j, history[j]) {
      assert KeysTell(redis, j, history[j]);
    }
    assert KeysTell(redis, jti, life);
    forall k | k in redis' ensures KeyKnown(k, history[jti := life.(fate := RotatedAt(at))]) {
      assert k in redis ==> KeyKnown(k, history);
    }
  }

  /** What clients and administrators do, and time passing. */
  datatype Call =
    | Pause(microseconds: nat)
    | Login(user: nat, delay: nat)
    | Present(k: nat, usable: bool, first: nat, second: nat)
    | Leave(k: nat)
    | Revoke(user: nat)

  predicate Issued(token: Token, history: History) {
    token.jti in history && history[token.jti].user == token.user && history[token.jti].exp == token.exp
  }

  /** No token is forgotten, and a decided fate stays. */
  predicate FatesFinal(before: History, after: History) {
    forall j :: j in before ==>
      && j in after && after[j].user == before[j].user && after[j].exp == before[j].exp
      && (!before[j].fate.Alive? ==> after[j].fate == before[j].fate)
  }

  class Store {
    var redis: Redis
    var clock: Time
    var nextJti: nat
    ghost var history: History

    ghost predicate Valid()
      reads this
    {
      && Agree(redis, history)
      && (forall j :: j in history ==> history[j].exp <= clock + WEEK)
      && (forall j :: j in history ==> j < nextJti)
    }

    constructor ()
      ensures Valid() && history == map[]
    {
      redis, clock, nextJti := map[], 0, 0;
      history := map[];
    }

    /** Time passes between two Redis commands of a handler, or between handlers. */
    method Elapse(microseconds: nat)
      requires Valid()
      modifies this`clock
      ensures Valid() && clock == old(clock) + microseconds
    {
      clock := clock + microseconds;
    }

    /** create_fresh_token, then SET session with the full seven days; `delay` passes in between. */
    method Issue(user: nat, delay: nat) returns (token: Token)
      requires Valid()
      modifies this`redis, this`clock, this`nextJti, this`history
      ensures Valid()
      ensures token == Token(user, old(nextJti), Claim(old(clock) + WEEK)) && token.jti !in old(history)
      ensures history == old(history)[token.jti := Life(user, token.exp, Alive)]
      ensures redis == old(redis)[Session(user, token.jti) := clock + WEEK] && clock == old(clock) + delay
      // seven days, less the fraction of a second that the claim drops
      ensures old(clock) + 604_799_000_000 < token.exp <= old(clock) + 604_800_000_000
    {
      token := Token(user, nextJti, Claim(clock + WEEK));
      nextJti := nextJti + 1;
      clock := clock + delay;
      redis := redis[Session(user, token.jti) := clock + WEEK];
      history := history[token.jti := Life(user, token.exp, Alive)];
    }

    /** A token the store issued to its user and that has not expired. */
    ghost predicate Current(token: Token)
      reads this
    {
      token.jti in history && history[token.jti].user == token.user && history[token.jti].exp == token.exp
          && clock < token.exp
    }

    /** GETDEL of the session key: it was there exactly if the token was alive. */
    method TakeSession(token: Token) returns (there: bool)
      requires Valid() && Current(token)
      modifies this`redis, this`history
      ensures Valid()
      ensures there == old(history[token.jti]).fate.Alive?
      ensures !there ==> redis == old(redis) && history == old(history)
      ensures there ==> history == old(history)[token.jti := old(history[token.jti]).(fate := Dropped)]
    {
      var key := Session(token.user, token.jti);
      there := key in redis && clock < redis[key];
      redis := redis - {key};
      if there {
        history := history[token.jti := history[token.jti].(fate := Dropped)];
      } else {
        assert redis == old(redis);
      }
    }

    /** scan_iter over session:{user}:* with a DEL each; revoke_all_user_sessions does the same. */
    method DeleteSessions(user: nat)
      requires Valid()
      modifies this`redis, this`history
      ensures Valid()
      ensures history == Wiped(old(history), user)
      ensures forall k :: k in redis <==> k in old(redis) && !(k.Session? && k.user == user)
      ensures forall k :: k in redis ==> redis[k] == old(redis)[k]
    {
      var keys := set k | k in redis && k.Session? && k.user == user;
      var left := keys;
      while left != {}
        invariant left <= keys
        invariant redis == old(redis) - (keys - left)
        invariant history == old(history)
        decreases left
      {
        var k :| k in left;
        redis := redis - {k};
        left := left - {k};
      }
      history := Wiped(history, user);
    }

    /** No session: the rotation and grace markers decide between a quiet answer and a wipe. */
    method AnswerDeadToken(token: Token) returns (verdict: Verdict)
      requires Valid() && Current(token) && !history[token.jti].fate.Alive?
      modifies this`redis, this`history
      ensures Valid()
      ensures verdict == ReadKeys(old(redis), token.user, token.jti, clock)
      ensures verdict == Judge(old(history[token.jti]), clock) && !verdict.Rotates?
      // a wipe exactly for a token rotated thirty seconds ago or earlier, and no session is left after it
      ensures verdict.Wipes? <==>
                old(history[token.jti]).fate.RotatedAt? && clock >= old(history[token.jti]).fate.at + 30_000_000
      ensures verdict.Wipes? ==> forall k :: k in redis ==> !(k.Session? && k.user == token.user)
      ensures verdict.Rejects? ==> redis == old(redis) && history == old(history)
      ensures verdict.Wipes? ==> history == Wiped(old(history), token.user)
    {
      KeysGiveHistory(redis, token.jti, history[token.jti], clock);
      var marker, grace := Rotated(token.user, token.jti), RotatedGrace(token.user, token.jti);
      if marker in redis && clock < redis[marker] {
        if grace in redis && clock < redis[grace] {
          return Rejects;
        }
        DeleteSessions(token.user);
        return Wipes;
      }
      return Rejects;
    }

    /** The rotation marker, then, a moment later, the grace marker. */
    method MarkRotated(token: Token, delay: nat)
      requires Valid() && token.jti in history && history[token.jti] == Life(token.user, token.exp, Dropped)
      modifies this`redis, this`clock, this`history
      ensures Valid() && clock == old(clock) + delay
      ensures history == old(history)[token.jti := Life(token.user, token.exp, RotatedAt(clock))]
    {
      MarkersTell(redis, history, token.jti, clock + WEEK, clock + delay);
      redis := redis[Rotated(token.user, token.jti) := clock + WEEK];
      clock := clock + delay;
      redis := redis[RotatedGrace(token.user, token.jti) := clock + GRACE];
      history := history[token.jti := Life(token.user, token.exp, RotatedAt(clock))];
    }

    /** New token and session, then the rotation marker, then the grace marker. */
    method Rotate(token: Token, first: nat, second: nat) returns (successor: Token)
      requires Valid() && token.jti in history && history[token.jti] == Life(token.user, token.exp, Dropped)
      modifies this
      ensures Valid()
      ensures successor.jti !in old(history) && successor.user == token.user
      ensures clock == old(clock) + first + second
      ensures history == old(history)[token.jti := Life(token.user, token.exp, RotatedAt(clock))]
                                     [successor.jti := Life(token.user, successor.exp, Alive)]
    {
      successor := Issue(token.user, first);
      assert history[token.jti] == Life(token.user, token.exp, Dropped);
      MarkRotated(token, second);
      assert history == old(history)[token.jti := Life(token.user, token.exp, RotatedAt(clock))]
                                    [successor.jti := Life(token.user, successor.exp, Alive)];
    }

    /**
     * POST /refresh with a genuine token that has not expired. `usable` says whether the user still exists,
     * is verified and is active; the delays pass before the new session and before the last marker.
     */
    method Refresh(token: Token, usable: bool, first: nat, second: nat) returns (verdict: Verdict, successor: Token)
      requires Valid() && Current(token)
      modifies this
      ensures Valid()
      // the answer is the one the history gives, a refused user aside
      ensures verdict == (if old(history[token.jti]).fate.Alive? && !usable then Rejects
                          else Judge(old(history[token.jti]), old(clock)))
      ensures verdict.Rotates? <==> old(history[token.jti]).fate.Alive? && usable
      ensures verdict.Wipes? <==> old(history[token.jti]).fate.RotatedAt?
                                  && old(clock) >= old(history[token.jti]).fate.at + 30_000_000
      // a live token rotates into exactly one live successor
      ensures verdict.Rotates? ==>
                && successor.jti !in old(history) && successor.user == token.user
                && history == old(history)[token.jti := Life(token.user, token.exp, RotatedAt(clock))]
                                          [successor.jti := Life(token.user, successor.exp, Alive)]
      // a quiet rejection of a dead token touches nothing, a refused user loses this token
      ensures verdict.Rejects? && !old(history[token.jti]).fate.Alive? ==>
                redis == old(redis) && history == old(history)
      ensures verdict.Rejects? && old(history[token.jti]).fate.Alive? ==>
                history == old(history)[token.jti := Life(token.user, token.exp, Dropped)]
      // a replay after the grace window empties the user's sessions
      ensures verdict.Wipes? ==> history == Wiped(old(history), token.user)
      ensures verdict.Wipes? ==> forall k :: k in redis ==> !(k.Session? && k.user == token.user)
    {
      successor := token;
      var there := TakeSession(token);
      if !there {
        verdict := AnswerDeadToken(token);
        return;
      }
      if !usable {
        return Rejects, token;
      }
      successor := Rotate(token, first, second);
      assert history == old(history)[token.jti := Life(token.user, token.exp, RotatedAt(clock))]
                                    [successor.jti := Life(token.user, successor.exp, Alive)];
      return Rotates, successor;
    }

    /** The refresh part of POST /logout: DEL of the session key. */
    method Logout(token: Token)
      requires Valid()
      requires token.jti in history && history[token.jti].user == token.user
      modifies this`redis, this`history
      ensures Valid()
      ensures history == if old(history[token.jti]).fate.Alive?
                         then old(history)[token.jti := old(history[token.jti]).(fate := Dropped)] else old(history)
    {
      redis := redis - {Session(token.user, token.jti)};
      if history[token.jti].fate.Alive? {
        history := history[token.jti := history[token.jti].(fate := Dropped)];
      }
    }

    /**
     * Any sequence of calls, with pauses between them: the keys keep telling the history, and the fate of a
     * token, once decided, never changes. A call presents the token issued k-th.
     */
    method Serve(calls: seq<Call>)
      requires Valid()
      modifies this
      ensures Valid() && FatesFinal(old(history), history)
    {
      var tokens: seq<Token> := [];
      for n := 0 to |calls|
        invariant Valid() && FatesFinal(old(history), history)
        invariant forall k :: 0 <= k < |tokens| ==> Issued(tokens[k], history)
      {
        match calls[n]
        case Pause(microseconds) => Elapse(microseconds);
        case Login(user, delay) =>
          var token := Issue(user, delay);
          tokens := tokens + [token];
        case Present(k, usable, first, second) =>
          if k < |tokens| && clock < tokens[k].exp {
            var verdict, successor := Refresh(tokens[k], usable, first, second);
            if verdict.Rotates? {
              tokens := tokens + [successor];
            }
          }
        case Leave(k) =>
          if k < |tokens| {
            Logout(tokens[k]);
          }
        case Revoke(user) => DeleteSessions(user);
      }
    }
  }
}
