// The refresh handler split into its single Redis commands. Any number of logins, refreshes, logouts,
// revocations and replay wipes interleave, and session keys may expire at any moment.

module RefreshLineage {

  /** Where a running refresh request is: it took the session key, wrote the new one, or marked the rotation. */
  datatype Request =
    | Took(jti: nat)                    // GETDEL answered "active"
    | Stored(jti: nat, successor: nat)  // SET session for the successor
    | Marked(jti: nat, successor: nat)  // SET rotated
    | Missed(jti: nat)                  // GETDEL answered nil
    | Replayed(jti: nat)                // rotated marker there, grace marker not: scanning

  datatype World = World(
    owner: map<nat, nat>,       // every jti ever issued, to its user
    login: map<nat, nat>,       // every jti ever issued, to the number of the login it descends from
    logins: nat,                // logins so far
    sessions: set<nat>,         // session keys in Redis
    rotated: set<nat>,          // rotation markers in Redis
    grace: set<nat>,            // grace markers in Redis
    graced: set<nat>,           // every jti whose grace marker was ever written
    requests: map<nat, Request>,
    accepted: seq<nat>)         // GETDELs that found their session, oldest first

  const EMPTY := World(map[], map[], 0, {}, {}, {}, {}, map[], [])

  datatype Command =
    | Login(user: nat, jti: nat)
    | GetDel(request: nat, jti: nat)
    | RefuseUser(request: nat)             // user gone, unverified or inactive
    | SetSession(request: nat, jti: nat)
    | SetRotated(request: nat)
    | SetGrace(request: nat)
    | ReadMarkers(request: nat)
    | WipeOne(request: nat, jti: nat)      // one DEL of the replay scan
    | Finish(request: nat)
    | Delete(jti: nat)                     // logout, or one DEL of a revocation
    | Expire(jti: nat)                     // session key runs out
    | ExpireRotated(jti: nat)
    | ExpireGrace(jti: nat)

  function Drop(w: World, request: nat): World {
    w.(requests := w.requests - {request})
  }

  function Next(w: World, c: Command): World {
    match c
    case Login(user, jti) =>
      if jti in w.owner then w
      else w.(owner := w.owner[jti := user], login := w.login[jti := w.logins], logins := w.logins + 1,
               sessions := w.sessions + {jti})
    case GetDel(r, jti) =>
      if r in w.requests || jti !in w.owner then w
      else if jti in w.sessions then
        w.(sessions := w.sessions - {jti}, requests := w.requests[r := Took(jti)], accepted := w.accepted + [jti])
      else w.(requests := w.requests[r := Missed(jti)])
    case RefuseUser(r) => if r in w.requests && w.requests[r].Took? then Drop(w, r) else w
    case SetSession(r, jti) =>
      if r in w.requests && w.requests[r].Took? && jti !in w.owner && w.requests[r].jti in w.owner
          && w.requests[r].jti in w.login then
        var spent := w.requests[r].jti;
        w.(owner := w.owner[jti := w.owner[spent]], login := w.login[jti := w.login[spent]],
           sessions := w.sessions + {jti}, requests := w.requests[r := Stored(spent, jti)])
      else w
    case SetRotated(r) =>
      if r in w.requests && w.requests[r].Stored? then
        w.(rotated := w.rotated + {w.requests[r].jti},
            requests := w.requests[r := Marked(w.requests[r].jti, w.requests[r].successor)])
      else w
    case SetGrace(r) =>
      if r in w.requests && w.requests[r].Marked? then
        Drop(w, r).(grace := w.grace + {w.requests[r].jti}, graced := w.graced + {w.requests[r].jti})
      else w
    case ReadMarkers(r) =>
      if r in w.requests && w.requests[r].Missed? then
        if w.requests[r].jti in w.rotated && w.requests[r].jti !in w.grace
        then w.(requests := w.requests[r := Replayed(w.requests[r].jti)]) else Drop(w, r)
      else w
    case WipeOne(r, jti) =>
      if r in w.requests && w.requests[r].Replayed? && w.requests[r].jti in w.owner && jti in w.owner
         && w.owner[jti] == w.owner[w.requests[r].jti]
      then w.(sessions := w.sessions - {jti}) else w
    case Finish(r) => if r in w.requests && w.requests[r].Replayed? then Drop(w, r) else w
    case Delete(jti) => w.(sessions := w.sessions - {jti})
    case Expire(jti) => w.(sessions := w.sessions - {jti})
    case ExpireRotated(jti) => w.(rotated := w.rotated - {jti})
    case ExpireGrace(jti) => w.(grace := w.grace - {jti})
  }

  function Play(commands: seq<Command>): World {
    if commands == [] then EMPTY else Next(Play(commands[..|commands| - 1]), commands[|commands| - 1])
  }

  /** Accepted tokens are spent: accepted once, never live again. */
  ghost predicate Spent(w: World) {
    && (forall j :: j in w.sessions ==> j in w.owner && j in w.login)
    && (forall k :: 0 <= k < |w.accepted| ==> w.accepted[k] in w.owner && w.accepted[k] !in w.sessions)
    && (forall j, k :: 0 <= j < k < |w.accepted| ==> w.accepted[j] != w.accepted[k])
    && w.owner.Keys == w.login.Keys
  }

  /** A login's claim to a session: a live key, or a refresh that has taken one and not yet stored the next. */
  predicate InFlight(w: World, r: nat) {
    r in w.requests && w.requests[r].Took? && w.requests[r].jti in w.login
  }

  ghost predicate OneLine(w: World) {
    && (forall r :: r in w.requests && w.requests[r].Took? ==> w.requests[r].jti in w.login)
    && (forall j,
        k :: j in w.sessions && k in w.sessions && j in w.login && k in w.login && w.login[j] == w.login[k] ==> j == k)
    && (forall r, k :: InFlight(w, r) && k in w.sessions && k in w.login ==> w.login[w.requests[r].jti] != w.login[k])
    && (forall r, q :: InFlight(w, r) && InFlight(w, q) && w.login[w.requests[r].jti] == w.login[w.requests[q].jti] ==>
        r == q)
    && (forall j :: j in w.login ==> w.login[j] < w.logins)
  }

  lemma NextSpent(w: World, c: Command)
    requires Spent(w)
    ensures Spent(Next(w, c))
  {}

  /** Losing sessions, and requests that move past their first command, cannot fork a line. */
  lemma FewerKeepOneLine(w: World, w': World)
    requires OneLine(w) && w'.login == w.login && w'.logins == w.logins && w'.sessions <= w.sessions
    requires forall r :: r in w'.requests && w'.requests[r].Took? ==> r in w.requests && w'.requests[r] == w.requests[r]
    ensures OneLine(w')
  {
    assert forall r :: InFlight(w', r) ==> InFlight(w, r);
  }

  lemma LoginOneLine(w: World, user: nat, jti: nat)
    requires Spent(w) && OneLine(w) && jti !in w.owner
    ensures OneLine(Next(w, Login(user, jti)))
  {
    var w' := Next(w, Login(user, jti));
    assert forall r :: InFlight(w', r) ==> InFlight(w, r);
  }

  lemma GetDelOneLine(w: World, r: nat, jti: nat)
    requires Spent(w) && OneLine(w) && r !in w.requests && jti in w.sessions
    ensures OneLine(Next(w, GetDel(r, jti)))
  {
    var w' := Next(w, GetDel(r, jti));
    forall q | InFlight(w', q) && q != r ensures InFlight(w, q) && w'.login[w'.requests[q].jti] != w.login[jti] {
      assert InFlight(w, q);
    }
    forall k | k in w'.sessions && k in w'.login ensures w'.login[k] != w.login[jti] {}
  }

  lemma SetSessionOneLine(w: World, r: nat, jti: nat)
    requires Spent(w) && OneLine(w) && InFlight(w, r) && jti !in w.owner && w.requests[r].jti in w.owner
    ensures OneLine(Next(w, SetSession(r, jti)))
  {
    var w' := Next(w, SetSession(r, jti));
    var line := w.login[w.requests[r].jti];
    forall q | InFlight(w', q) ensures InFlight(w, q) && q != r && w'.login[w'.requests[q].jti] != line {
      assert q != r;
      assert InFlight(w, q);
    }
    forall k | k in w'.sessions && k != jti ensures k in w.sessions && w'.login[k] != line {
      assert k in w.login;
    }
  }

  /** The other commands write no session and take none. */
  lemma OthersOnlyLose(w: World, c: Command)
    requires !c.Login? && !c.GetDel? && !c.SetSession?
    ensures var w' := Next(w, c);
            && w'.login == w.login && w'.logins == w.logins && w'.sessions <= w.sessions
            && forall r :: r in w'.requests && w'.requests[r].Took? ==>
                r in w.requests && w'.requests[r] == w.requests[r]
  {}

  lemma NextOneLine(w: World, c: Command)
    requires Spent(w) && OneLine(w)
    ensures OneLine(Next(w, c))
  {
    match c
    case Login(user, jti) => if jti !in w.owner { LoginOneLine(w, user, jti); }
    case GetDel(r, jti) =>
      if r !in w.requests && jti in w.owner {
        if jti in w.sessions {
          GetDelOneLine(w, r, jti);
        } else {
          FewerKeepOneLine(w, Next(w, c));
        }
      }
    case SetSession(r, jti) =>
      if InFlight(w, r) && jti !in w.owner && w.requests[r].jti in w.owner { SetSessionOneLine(w, r, jti); }
    case _ => OthersOnlyLose(w, c); FewerKeepOneLine(w, Next(w, c));
  }

  lemma {:induction false} PlaySound(commands: seq<Command>)
    ensures Spent(Play(commands)) && OneLine(Play(commands))
  {
    if commands != [] {
      PlaySound(commands[..|commands| - 1]);
      NextSpent(Play(commands[..|commands| - 1]), commands[|commands| - 1]);
      NextOneLine(Play(commands[..|commands| - 1]), commands[|commands| - 1]);
    }
  }

  /** Each refresh token is accepted at most once, whatever interleaves. */
  lemma AcceptedOnce(commands: seq<Command>, j: nat, k: nat)
    requires j < k < |Play(commands).accepted|
    ensures Play(commands).accepted[j] != Play(commands).accepted[k]
  {
    PlaySound(commands);
  }

  lemma NextNeverRevives(w: World, c: Command, jti: nat)
    requires jti in w.owner && jti !in w.sessions
    ensures jti in Next(w, c).owner && jti !in Next(w, c).sessions
  {}

  /** A token that was accepted, or whose session is gone for any other reason, never becomes live again. */
  lemma {:induction false} NeverLiveAgain(before: seq<Command>, after: seq<Command>, jti: nat)
    requires jti in Play(before).owner && jti !in Play(before).sessions
    ensures jti in Play(before + after).owner && jti !in Play(before + after).sessions
  {
    if after == [] {
      assert before + after == before;
    } else {
      var last := |after| - 1;
      NeverLiveAgain(before, after[..last], jti);
      assert (before + after)[..|before + after| - 1] == before + after[..last];
      NextNeverRevives(Play(before + after[..last]), after[last], jti);
    }
  }

  /** Each login has at most one live session descended from it. */
  lemma OneSessionPerLogin(commands: seq<Command>, j: nat, k: nat)
    requires j in Play(commands).sessions && k in Play(commands).sessions
    ensures j in Play(commands).login && k in Play(commands).login
    ensures Play(commands).login[j] == Play(commands).login[k] ==> j == k
  {
    PlaySound(commands);
  }

  // ---------------------------------------------------------------- the gap between the two markers

  /** The jti a request is rotating. */
  predicate Rotates(w: World, r: nat, j: nat) {
    r in w.requests && (w.requests[r].Took? || w.requests[r].Stored? || w.requests[r].Marked?) && w.requests[r].jti == j
  }

  /** A request has written the rotation marker and not yet the grace marker. */
  predicate Between(w: World, r: nat, j: nat) {
    r in w.requests && w.requests[r].Marked? && w.requests[r].jti == j
  }

  /** Each token is rotated by one request, which writes its grace marker once; a rotation marker says how far it is. */
  ghost predicate MarkersTold(w: World) {
    && (forall r, j :: Rotates(w, r, j) ==> j in w.accepted && j !in w.graced)
    && (forall r, q, j :: Rotates(w, r, j) && Rotates(w, q, j) ==> r == q)
    && (forall j :: j in w.graced ==> j in w.accepted)
    && w.grace <= w.graced
    && (forall j :: j in w.rotated ==> j in w.graced || exists r :: Between(w, r, j))
  }

  lemma GetDelTold(w: World, r: nat, jti: nat)
    requires Spent(w) && MarkersTold(w)
    ensures MarkersTold(Next(w, GetDel(r, jti)))
  {
    var w' := Next(w, GetDel(r, jti));
    forall q, j | Rotates(w', q, j) && q != r ensures Rotates(w, q, j) {}
    forall j | j in w'.rotated ensures j in w'.graced || exists q :: Between(w', q, j) {
      if j !in w.graced {
        var q :| Between(w, q, j);
        assert Between(w', q, j);
      }
    }
  }

  /** A request that moves on keeps its token; only SET rotated and SET grace move the markers. */
  lemma MovesOnTold(w: World, c: Command)
    requires MarkersTold(w) && (c.SetSession? || c.SetRotated? || c.SetGrace?)
    ensures MarkersTold(Next(w, c))
  {
    var w' := Next(w, c);
    forall q, j | Rotates(w', q, j) ensures Rotates(w, q, j) && (c.SetGrace? && w' != w ==> q != c.request) {}
    if w' != w {
      var mine := w.requests[c.request].jti;
      assert Rotates(w, c.request, mine);
      forall j | j in w'.rotated ensures j in w'.graced || exists q :: Between(w', q, j) {
        if c.SetRotated? && j == mine {
          assert Between(w', c.request, j);
        } else if j !in w'.graced {
          var q :| Between(w, q, j);
          assert Between(w', q, j);
        }
      }
    }
  }

  lemma OthersTold(w: World, c: Command)
    requires MarkersTold(w) && !c.GetDel? && !c.SetSession? && !c.SetRotated? && !c.SetGrace?
    ensures MarkersTold(Next(w, c))
  {
    var w' := Next(w, c);
    forall q, j | Rotates(w', q, j) ensures Rotates(w, q, j) {}
    forall j | j in w'.rotated ensures j in w'.graced || exists q :: Between(w', q, j) {
      if j !in w.graced {
        var q :| Between(w, q, j);
        if c.RefuseUser? || c.Finish? || c.ReadMarkers? {
          assert q == c.request ==> w.requests[q].Marked?;
        }
        assert Between(w', q, j);
      }
    }
  }

  lemma {:induction false} PlayTold(commands: seq<Command>)
    ensures MarkersTold(Play(commands))
  {
    if commands != [] {
      var before, c := Play(commands[..|commands| - 1]), commands[|commands| - 1];
      PlayTold(commands[..|commands| - 1]);
      PlaySound(commands[..|commands| - 1]);
      if c.GetDel? {
        GetDelTold(before, c.request, c.jti);
      } else if c.SetSession? || c.SetRotated? || c.SetGrace? {
        MovesOnTold(before, c);
      } else {
        OthersTold(before, c);
      }
    }
  }

  /** Reading the markers, this request starts to wipe the user's sessions. */
  predicate StartsWipe(w: World, r: nat) {
    r in w.requests && w.requests[r].Missed? && r in Next(w, ReadMarkers(r)).requests
    && Next(w, ReadMarkers(r)).requests[r].Replayed?
  }

  /**
   * A second tab that presents a rotated token wipes the sessions if and only if the rotation marker is there and
   * the thirty seconds have run out, or have not begun: the rotating request is between its two markers.
   */
  lemma WipesExactly(commands: seq<Command>, r: nat, j: nat)
    requires r in Play(commands).requests && Play(commands).requests[r] == Missed(j)
    ensures var w := Play(commands);
            StartsWipe(w, r) <==>
              j in w.rotated && ((exists q :: Between(w, q, j)) || (j in w.graced && j !in w.grace))
  {
    PlayTold(commands);
    var w := Play(commands);
    if exists q :: Between(w, q, j) {
      var q :| Between(w, q, j);
      assert Rotates(w, q, j);
    }
  }

  // ---------------------------------------------------------------- refreshes one after the other

  /**
   * After any sequence of commands, a refresh that runs undisturbed with a live token trades its session for one of
   * the successor, leaves both markers, and touches nothing else.
   */
  lemma RefreshInOneGo(commands: seq<Command>, r: nat, j: nat, next: nat)
    requires var w := Play(commands); j in w.sessions && r !in w.requests && next !in w.owner
    ensures var w := Play(commands);
            j in w.owner && j in w.login &&
            var done := Next(Next(Next(Next(w, GetDel(r, j)), SetSession(r, next)), SetRotated(r)), SetGrace(r));
            done == w.(owner := w.owner[next := w.owner[j]], login := w.login[next := w.login[j]],
                       sessions := w.sessions - {j} + {next}, rotated := w.rotated + {j}, grace := w.grace + {j},
                       graced := w.graced + {j}, accepted := w.accepted + [j])
  {
    var w := Play(commands);
    PlaySound(commands);
    var took := Next(w, GetDel(r, j));
    assert took == w.(sessions := w.sessions - {j}, requests := w.requests[r := Took(j)], accepted := w.accepted + [j]);
    var stored := Next(took, SetSession(r, next));
    assert stored.requests == w.requests[r := Stored(j, next)];
    var marked := Next(stored, SetRotated(r));
    assert marked.requests == w.requests[r := Marked(j, next)];
    assert marked.requests - {r} == w.requests;
  }

  /**
   * A token whose session is gone is presented undisturbed. With both markers, or without the rotation marker, nothing
   * changes at all. With the rotation marker alone, each session of its user can be wiped, and no other.
   */
  lemma PresentedAgain(commands: seq<Command>, r: nat, j: nat, other: nat)
    requires var w := Play(commands); j in w.owner && j !in w.sessions && r !in w.requests
    ensures var w := Play(commands);
            var read := Next(Next(w, GetDel(r, j)), ReadMarkers(r));
            if j in w.rotated && j !in w.grace then
              var wiped := Next(read, WipeOne(r, other));
              && read == w.(requests := w.requests[r := Replayed(j)])
              && wiped.sessions == (if other in w.owner && w.owner[other] == w.owner[j] then w.sessions - {other}
                                    else w.sessions)
              && Next(wiped, Finish(r)) == w.(sessions := wiped.sessions)
            else read == w
  {
    var w := Play(commands);
    assert w.requests[r := Missed(j)] - {r} == w.requests;
    assert w.requests[r := Replayed(j)] - {r} == w.requests;
  }

  /** A user who may not refresh any more loses the session presented, and leaves no marker. */
  lemma RefusedInOneGo(commands: seq<Command>, r: nat, j: nat)
    requires var w := Play(commands); j in w.sessions && r !in w.requests
    ensures var w := Play(commands);
            Next(Next(w, GetDel(r, j)), RefuseUser(r))
              == w.(sessions := w.sessions - {j}, accepted := w.accepted + [j])
  {
    var w := Play(commands);
    PlaySound(commands);
    assert w.requests[r := Took(j)] - {r} == w.requests;
  }

  /** A login gets a session of its own. */
  lemma LoginLives(commands: seq<Command>, user: nat, j: nat)
    requires j !in Play(commands).owner
    ensures var w, w' := Play(commands), Next(Play(commands), Login(user, j));
            && w'.sessions == w.sessions + {j} && w'.owner == w.owner[j := user]
            && j in w'.login && forall k :: k in w.login ==> w'.login[j] != w'.login[k]
  {
    PlaySound(commands);
  }

  // ---------------------------------------------------------------- a second tab in the gap

  /** One login, one tab that rotates, and a second tab that reads the markers in the gap. */
  const TWO_TABS: seq<Command> := [
    Login(1, 0), GetDel(7, 0), SetSession(7, 1), SetRotated(7), GetDel(8, 0), ReadMarkers(8), WipeOne(8, 1)]

  function After(n: nat): World
    requires n <= 7
  {
    if n == 0 then EMPTY else Next(After(n - 1), TWO_TABS[n - 1])
  }

  lemma {:induction false} AfterIsPlay(n: nat)
    requires n <= 7
    ensures After(n) == Play(TWO_TABS[..n])
  {
    if n > 0 {
      AfterIsPlay(n - 1);
      assert TWO_TABS[..n][..n - 1] == TWO_TABS[..n - 1];
    }
  }

  function Tabs(sessions: set<nat>, rotated: set<nat>, requests: map<nat, Request>): World {
    World(map[0 := 1, 1 := 1], map[0 := 0, 1 := 0], 1, sessions, rotated, {}, {}, requests, [0])
  }

  lemma InTheGap()
    ensures After(4) == Tabs({1}, {0}, map[7 := Marked(0, 1)])
  {
    assert After(1) == World(map[0 := 1], map[0 := 0], 1, {0}, {}, {}, {}, map[], []);
    assert After(2) == World(map[0 := 1], map[0 := 0], 1, {}, {}, {}, {}, map[7 := Took(0)], [0]);
    assert After(3) == Tabs({1}, {}, map[7 := Stored(0, 1)]);
  }

  lemma SecondTab(w: World)
    requires w == Tabs({1}, {0}, map[7 := Marked(0, 1)])
    ensures Next(Next(Next(w, GetDel(8, 0)), ReadMarkers(8)), WipeOne(8, 1))
         == Tabs({}, {0}, map[7 := Marked(0, 1), 8 := Replayed(0)])
  {
    assert Next(w, GetDel(8, 0)) == Tabs({1}, {0}, map[7 := Marked(0, 1), 8 := Missed(0)]);
  }

  /** The successor's session is gone although no marker and no session ever expired. */
  lemma WipedInTheGap()
    ensures var w := Play(TWO_TABS);
            w.sessions == {} && w.owner == map[0 := 1, 1 := 1] && w.rotated == {0} && w.graced == {}
    ensures forall k :: 0 <= k < |TWO_TABS| ==>
              !TWO_TABS[k].Delete? && !TWO_TABS[k].Expire? && !TWO_TABS[k].ExpireRotated? && !TWO_TABS[k].ExpireGrace?
  {
    AfterIsPlay(7);
    assert TWO_TABS[..7] == TWO_TABS;
    InTheGap();
    SecondTab(After(4));
    assert After(5) == Next(After(4), GetDel(8, 0));
    assert After(6) == Next(After(5), ReadMarkers(8));
  }
}
