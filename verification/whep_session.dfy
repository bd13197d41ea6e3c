/** The close of a WHEP session whose creation may be uncertain
    (mediamtx_server.go): how the session is looked for in the native inventory,
    and what its fields become. The interleavings with the native server are in
    `WhepProtocol`. */
module WhepSections {

  /** One entry of the native session inventory. `tokens` are the values of its
      xgcSession query parameter; `parsed` tells whether the query parses. */
  datatype NativeSession = NativeSession(id: nat, path: nat, reading: bool, parsed: bool, tokens: seq<nat>)

  predicate Carries(s: NativeSession, token: nat) {
    s.parsed && s.tokens == [token]
  }

  predicate RightIdentity(s: NativeSession, path: nat) {
    s.path == path && s.reading
  }

  datatype Match = Absent | Found(id: nat) | Mismatch | NotUnique

  /** What an inventory says about a session: it is absent exactly when no entry
      carries its token, and found exactly when a single entry does, which has the
      right identity and is the one observed before, if any was. */
  ghost predicate Finds(inventory: seq<NativeSession>, token: nat, path: nat, observed: nat, found: Match) {
    && (found.Absent? <==> forall k :: 0 <= k < |inventory| ==> !Carries(inventory[k], token))
    && (forall id ::
          found == Found(id) <==>
            exists k :: 0 <= k < |inventory| && Carries(inventory[k], token) && inventory[k].id == id
              && RightIdentity(inventory[k], path) && (observed == 0 || observed == id)
              && forall j :: 0 <= j < |inventory| && Carries(inventory[j], token) ==> j == k)
    && (found.Mismatch? ==>
          exists k :: 0 <= k < |inventory| && Carries(inventory[k], token) && !RightIdentity(inventory[k], path))
  }

  /** `mediaMTXSession` as far as its close is concerned. `observed` is the native
      identifier once seen in an inventory, 0 before. */
  datatype Session = Session(
    opening: bool,
    closeRequested: bool,
    closed: bool,
    located: bool,              // the creation reply carried a location
    observed: nat,
    responseComplete: bool)     // creation failed with a full HTTP response

  const NEW_SESSION := Session(true, false, false, false, 0, false)

  datatype Reply = Created | Rejected | Lost

  /** What OpenSession records when the creation call returns. A session created while
      the edge closes is closed at once. */
  function CreationReplied(s: Session, reply: Reply, closing: bool): Session {
    match reply
    case Created => s.(opening := false, located := true, closeRequested := s.closeRequested || closing)
    case Rejected => s.(opening := false, closeRequested := true, responseComplete := true)
    case Lost => s.(opening := false, closeRequested := true)
  }

  function RequestClose(s: Session): Session {
    s.(closeRequested := true)
  }

  /** How closeUnknownSession goes on after the inventory. */
  datatype Verdict = Gone | Kick(id: nat) | Retain

  function Decide(s: Session, found: Match): Verdict {
    match found
    case Absent => if s.observed != 0 || s.responseComplete then Gone else Retain
    case Found(id) => Kick(id)
    case _ => Retain
  }

  function Observe(s: Session, found: Match): Session {
    if found.Found? then s.(observed := found.id) else s
  }

  /** What comes back when the inventory is asked for. */
  datatype Inventory = NoInventory | Inventory(sessions: seq<NativeSession>)

  /** The session with its fields updated in place. */
  class WhepSession {
    const token: nat
    const path: nat
    var opening: bool
    var closeRequested: bool
    var closed: bool
    var located: bool
    var observed: nat
    var responseComplete: bool

    function View(): Session
      reads this
    {
      Session(opening, closeRequested, closed, located, observed, responseComplete)
    }

    constructor (token: nat, path: nat)
      ensures View() == NEW_SESSION && this.token == token && this.path == path
    {
      this.token, this.path := token, path;
      opening, closeRequested, closed, located, observed, responseComplete := true, false, false, false, 0, false;
    }

    /** Whether the caller has to close the session itself. */
    method CreationRepliedSection(reply: Reply, closing: bool) returns (closes: bool)
      modifies this
      ensures View() == CreationReplied(old(View()), reply, closing)
      ensures closes == (reply.Created? && closeRequested)
      ensures !opening && located == (old(located) || reply.Created?)
      ensures closeRequested == (old(closeRequested) || closing || !reply.Created?)
      ensures responseComplete == (old(responseComplete) || reply.Rejected?)
    {
      opening := false;
      if reply != Created {
        closeRequested := true;
        if reply == Rejected {
          responseComplete := true;
        }
        return false;
      }
      located := true;
      if closing {
        closeRequested := true;
      }
      return closeRequested;
    }

    method FindInInventory(inventory: seq<NativeSession>) returns (found: Match)
      ensures Finds(inventory, token, path, observed, found)
    {
      found := Absent;
      ghost var at := 0;
      for k := 0 to |inventory|
        invariant found.Absent? || found.Found?
        invariant found.Absent? ==> forall j :: 0 <= j < k ==> !Carries(inventory[j], token)
        invariant found.Found? ==>
          && 0 <= at < k
          && Carries(inventory[at], token) && inventory[at].id == found.id
          && RightIdentity(inventory[at], path) && (observed == 0 || observed == found.id)
          && forall j :: 0 <= j < k && Carries(inventory[j], token) ==> j == at
      {
        var actual := inventory[k];
        if !actual.parsed {
          continue;
        }
        if |actual.tokens| != 1 || actual.tokens[0] != token {
          continue;
        }
        if actual.path != path || !actual.reading {
          return Mismatch;
        }
        if found.Found? || (observed != 0 && actual.id != observed) {
          return NotUnique;
        }
        found, at := Found(actual.id), k;
      }
    }

    /** closeUnknownSession between the inventory and the kick. */
    method DecideSection(found: Match) returns (verdict: Verdict)
      modifies this
      ensures verdict == Decide(old(View()), found)
      ensures found.Found? ==> verdict == Kick(found.id)
      ensures verdict.Gone? <==> found.Absent? && (observed != 0 || responseComplete)
      ensures View() == Observe(old(View()), found)
    {
      match found
      case Absent =>
        if observed != 0 || responseComplete {
          return Gone;
        }
        return Retain;
      case Found(id) =>
        observed := id;
        return Kick(id);
      case _ =>
        return Retain;
    }

    // ----- the whole close of an unknown session

    /** closeUnknownSession and the end of closeSessionContext, on the inventory if it came
        and with the kick's outcome. The session is kicked exactly when one entry carries
        its token and can be it, and closed exactly when that kick was confirmed, or when
        the inventory lacks the token of a session that was observed before or whose
        creation was answered in full. */
    method CloseUnknown(inventory: Inventory, kickOk: bool) returns (ok: bool, verdict: Verdict)
      requires !closed
      modifies this
      ensures ok == closed
      ensures forall id :: verdict == Kick(id) <==> inventory.Inventory? && old(CanBeKicked(inventory.sessions, id))
      ensures verdict.Kick? ==> observed == verdict.id
      ensures ok <==> inventory.Inventory? && (old(ByAbsence(inventory.sessions)) || (verdict.Kick? && kickOk))
      ensures !verdict.Kick? ==> observed == old(observed)
      ensures closeRequested && opening == old(opening) && located == old(located)
      ensures responseComplete == old(responseComplete)
    {
      closeRequested := true;
      verdict := Retain;
      if inventory.NoInventory? {
        return false, verdict;
      }
      var found := FindInInventory(inventory.sessions);
      verdict := DecideSection(found);
      forall id ensures verdict == Kick(id) <==> old(CanBeKicked(inventory.sessions, id)) {
        assert found == Found(id) <==> old(CanBeKicked(inventory.sessions, id));
      }
      ok := verdict.Gone? || (verdict.Kick? && kickOk);
      closed := ok;
    }

    ghost predicate ByAbsence(inventory: seq<NativeSession>)
      reads this
    {
      && (observed != 0 || responseComplete)
      && forall k :: 0 <= k < |inventory| ==> !Carries(inventory[k], token)
    }

    /** The one entry with the token has this identifier, the right identity, and is the
        one observed before, if any was. */
    ghost predicate CanBeKicked(inventory: seq<NativeSession>, id: nat)
      reads this`observed
    {
      exists k :: 0 <= k < |inventory| && Carries(inventory[k], token) && inventory[k].id == id
        && RightIdentity(inventory[k], path) && (observed == 0 || observed == id)
        && forall j :: 0 <= j < |inventory| && Carries(inventory[j], token) ==> j == k
    }
  }
}
