/**
 * The plugin object: the in-memory store of render states keyed by
 * platform and identity, the lookups built at start-up, the in-place
 * adjustment of a render state, and the `pjsk.draw` and `pjsk.调整`
 * handlers.  Each `Execute` method assigns the state's fields step by step
 * as the plugin does and is proved to end in the state the matching rule
 * describes, or to leave the state untouched when the rule refuses.
 */
module Plugin {
  import opened Wrappers
  import opened Text
  import opened Aliases
  import opened Tokens
  import opened Card
  import opened Rules

  // ---------------------------------------------------------------------
  // Keys
  // ---------------------------------------------------------------------

  /** What the handlers read from a chat event; `None` is an attribute that is absent (or a getter that raised). */
  datatype Event = Event(
    platform: Option<string>,
    sessionId: Option<string>,
    senderId: Option<string>,
    senderName: Option<string>,
    message: string)

  /** Python truthiness of an optional string. */
  predicate Truthy(o: Option<string>) {
    o.Some? && o.value != []
  }

  /** The first truthy candidate, in order. */
  function FirstTruthy(candidates: seq<Option<string>>): (r: Option<string>)
    ensures r.Some? ==> r.value != [] && Some(r.value) in candidates
    ensures r.Some? ==> exists i :: 0 <= i < |candidates| && candidates[i] == r && forall j :: 0 <= j < i ==> !Truthy(candidates[j])
    ensures r.None? ==> forall o | o in candidates :: !Truthy(o)
  {
    if candidates == [] then None
    else if Truthy(candidates[0]) then candidates[0]
    else
      var r := FirstTruthy(candidates[1..]);
      assert forall o | o in candidates :: o == candidates[0] || o in candidates[1..];
      if r.Some? then
        TruthyAfterFalsy(candidates, r);
        r
      else r
  }

  /** A first truthy candidate of the tail, behind a falsy head, is the first of the whole list. */
  lemma TruthyAfterFalsy(candidates: seq<Option<string>>, r: Option<string>)
    requires candidates != [] && !Truthy(candidates[0])
    requires exists i :: 0 <= i < |candidates[1..]| && candidates[1..][i] == r && forall j :: 0 <= j < i ==> !Truthy(candidates[1..][j])
    ensures exists i :: 0 <= i < |candidates| && candidates[i] == r && forall j :: 0 <= j < i ==> !Truthy(candidates[j])
  {
    var i :| 0 <= i < |candidates[1..]| && candidates[1..][i] == r && forall j :: 0 <= j < i ==> !Truthy(candidates[1..][j]);
    assert candidates[i + 1] == r;
    forall j | 0 <= j < i + 1
      ensures !Truthy(candidates[j])
    {
      if j > 0 {
        assert candidates[j] == candidates[1..][j - 1];
      }
    }
  }

  /**
   * The priority of `_state_key`: the session id when it is non-empty, else the
   * sender id, else the sender name, else "unknown".
   */
  lemma StateKeyPriority(e: Event)
    ensures Truthy(e.sessionId) ==> StateKey(e).1 == e.sessionId.value
    ensures !Truthy(e.sessionId) && Truthy(e.senderId) ==> StateKey(e).1 == e.senderId.value
    ensures !Truthy(e.sessionId) && !Truthy(e.senderId) && Truthy(e.senderName) ==> StateKey(e).1 == e.senderName.value
    ensures !Truthy(e.sessionId) && !Truthy(e.senderId) && !Truthy(e.senderName) ==> StateKey(e).1 == "unknown"
  {
    var candidates := [e.sessionId, e.senderId, e.senderName];
    var r := FirstTruthy(candidates);
    if r.Some? {
      var i :| 0 <= i < |candidates| && candidates[i] == r && forall j :: 0 <= j < i ==> !Truthy(candidates[j]);
      assert i == 0 || !Truthy(candidates[0]);
      assert i <= 1 || !Truthy(candidates[1]);
    }
  }

  /**
   * `_state_key`: the platform (or "unknown") with the session id, else the
   * sender id, else the sender name, else "unknown".
   */
  function StateKey(e: Event): (k: (string, string))
    ensures k.0 == (if Truthy(e.platform) then e.platform.value else "unknown")
    ensures k.1 == FirstTruthy([e.sessionId, e.senderId, e.senderName]).GetOr("unknown")
  {
    var platform := if Truthy(e.platform) then e.platform.value else "unknown";
    if Truthy(e.sessionId) then (platform, e.sessionId.value)
    else if Truthy(e.senderId) then (platform, e.senderId.value)
    else if Truthy(e.senderName) then (platform, e.senderName.value)
    else (platform, "unknown")
  }

  // ---------------------------------------------------------------------
  // The store
  // ---------------------------------------------------------------------

  /** `StateManager`: render states by key. */
  class StateManager {
    var states: map<(string, string), RenderState>

    constructor ()
      ensures states == map[]
    {
      states := map[];
    }

    method Get(key: (string, string)) returns (r: Option<RenderState>)
      ensures r == if key in states then Some(states[key]) else None
    {
      if key in states {
        r := Some(states[key]);
      } else {
        r := None;
      }
    }

    method Set(key: (string, string), state: RenderState)
      modifies this
      ensures states == old(states)[key := state]
    {
      states := states[key := state];
    }

    method Exists(key: (string, string)) returns (r: bool)
      ensures r <==> key in states
    {
      r := key in states;
    }
  }

  /** How `pjsk.调整` answers: the guide, a refusal, or the headline of the adjustment. */
  datatype Reply = Guidance | Refused(failure: Failure) | Adjusted(notice: Notice)

  /** The method ended in the state and the reply the rule's outcome describes; a refusal changes nothing. */
  predicate Applied(before: Config, after: Config, r: Result<Notice, Failure>, outcome: Outcome) {
    match outcome
    case Ok((c, n)) => after == c && r == Ok(n)
    case Err(e) => after == before && r == Err(e)
  }

  /** The reply and the new card match the rule's outcome; a refusal leaves the card as it was. */
  predicate Answered(before: Config, after: Config, reply: Reply, outcome: Outcome) {
    match outcome
    case Ok((c, n)) => after == c && reply == Adjusted(n)
    case Err(e) => after == before && reply == Refused(e)
  }

  /** The command head, its variants and the remainder of a non-blank `adjust` message. */
  function ParseAdjustment(message: string): (string, seq<string>, string) {
    var (first, remainder) := ExtractFirstToken(message);
    var (command, variants) := SplitToken(first);
    (command, variants, remainder)
  }

  const CreatedHeadline: string := "🎨 已完成初始渲染"
  const RefreshedHeadline: string := "🎨 已重新渲染"

  // ---------------------------------------------------------------------
  // The plugin
  // ---------------------------------------------------------------------

  class PjskPlugin {
    const stateManager: StateManager
    const commandLookup: map<string, string>
    const directionLookup: map<string, string>
    const roleLookup: map<string, string>
    const roleNames: seq<string>

    /** The lookups and role list are those of the alias tables. */
    ghost predicate Built()
    {
      && commandLookup == CommandLookup()
      && directionLookup == DirectionLookup()
      && roleLookup == RoleLookup()
      && roleNames == RoleNames
    }

    /** No render state is stored under two keys. */
    ghost predicate Distinct()
      reads stateManager
    {
      forall k1, k2 | k1 in stateManager.states && k2 in stateManager.states && k1 != k2 ::
        stateManager.states[k1] != stateManager.states[k2]
    }

    ghost predicate Valid()
      reads stateManager
    {
      Built() && Distinct()
    }

    /** `__init__`: an empty store and the three lookups. */
    constructor ()
      ensures Valid() && fresh(stateManager) && stateManager.states == map[]
    {
      var commands := BuildLookup(CommandAliases);
      var directions := BuildLookup(DirectionAliases);
      var roles := BuildLookup(RoleAliases);
      stateManager := new StateManager();
      commandLookup, directionLookup, roleLookup := commands, directions, roles;
      roleNames := Canonicals(RoleAliases);
    }

    /** `_require_state`: the stored state for the event's key, or `MissingState`. */
    method RequireState(e: Event) returns (r: Result<RenderState, Failure>)
      ensures r.Ok? <==> StateKey(e) in stateManager.states
      ensures r.Ok? ==> r.value == stateManager.states[StateKey(e)]
      ensures r.Err? ==> r.error == MissingState
    {
      var state := stateManager.Get(StateKey(e));
      if state.None? {
        return Err(MissingState);
      }
      return Ok(state.value);
    }

    method ExecuteText(state: RenderState, text: string) returns (r: Result<Notice, Failure>)
      modifies state
      ensures Applied(old(state.Snapshot()), state.Snapshot(), r, TextRule(old(state.Snapshot()), text))
    {
      ghost var before := state.Snapshot();
      var sanitized := Strip(text);
      if sanitized == [] {
        return Err(EmptyText);
      }
      if |sanitized| > MaxTextLength {
        return Err(TextTooLong);
      }
      state.text := sanitized;
      assert state.Snapshot() == before.(text := sanitized);
      return Ok(TextUpdated);
    }

    method ExecuteFontSize(state: RenderState, variant: Option<string>, args: seq<string>) returns (r: Result<Notice, Failure>)
      modifies state
      ensures Applied(old(state.Snapshot()), state.Snapshot(), r, FontSizeRule(old(state.Snapshot()), variant, args))
    {
      ghost var before := state.Snapshot();
      if Present(variant) {
        var action := SizeAction(variant.value);
        if action.None? {
          assert FontSizeRule(before, variant, args) == Err(UnknownSizeVariant);
          return Err(UnknownSizeVariant);
        }
        assert FontSizeRule(before, variant, args) == Ok(StepFontSize(before, action.value == "increase"));
        var notice := StepFontSizeIn(state, action.value == "increase");
        return Ok(notice);
      }
      if args == [] {
        assert FontSizeRule(before, variant, args) == Err(MissingFontSize);
        return Err(MissingFontSize);
      }
      var value := ParseInt(args[0]);
      if value.Err? {
        assert FontSizeRule(before, variant, args) == Err(value.error);
        return Err(value.error);
      }
      assert FontSizeRule(before, variant, args) == Ok(SetFontSize(before, value.value));
      var clamped := Clamp(value.value, FontSizeMin, FontSizeMax);
      state.fontSize := clamped;
      assert state.Snapshot() == before.(fontSize := clamped);
      assert SetFontSize(before, value.value) == (state.Snapshot(), FontSizeSet(clamped, clamped != value.value));
      return Ok(FontSizeSet(clamped, clamped != value.value));
    }

    /** One font size step applied to the card in place, with its headline. */
    static method StepFontSizeIn(state: RenderState, up: bool) returns (notice: Notice)
      modifies state
      ensures (state.Snapshot(), notice) == StepFontSize(old(state.Snapshot()), up)
    {
      ghost var before := state.Snapshot();
      var previous := state.fontSize;
      if up {
        state.fontSize := Clamp(previous + FontSizeStep, FontSizeMin, FontSizeMax);
        assert state.Snapshot() == before.(fontSize := state.fontSize);
        if state.fontSize == previous {
          return FontSizeAtMax(state.fontSize);
        }
        return FontSizeIncreased(state.fontSize);
      }
      state.fontSize := Clamp(previous - FontSizeStep, FontSizeMin, FontSizeMax);
      assert state.Snapshot() == before.(fontSize := state.fontSize);
      if state.fontSize == previous {
        return FontSizeAtMin(state.fontSize);
      }
      return FontSizeDecreased(state.fontSize);
    }

    method ExecuteLineSpacing(state: RenderState, variant: Option<string>, args: seq<string>) returns (r: Result<Notice, Failure>)
      modifies state
      ensures Applied(old(state.Snapshot()), state.Snapshot(), r, LineSpacingRule(old(state.Snapshot()), variant, args))
    {
      ghost var before := state.Snapshot();
      if Present(variant) {
        var action := SizeAction(variant.value);
        if action.None? {
          return Err(UnknownSpacingVariant);
        }
        var previous := state.lineSpacing;
        if action.value == "increase" {
          state.lineSpacing := Clamp(previous + LineSpacingStep, LineSpacingMin, LineSpacingMax);
          assert state.Snapshot() == before.(lineSpacing := state.lineSpacing);
          if state.lineSpacing == previous {
            return Ok(LineSpacingAtMax(state.lineSpacing));
          }
          return Ok(LineSpacingIncreased(state.lineSpacing));
        }
        state.lineSpacing := Clamp(previous - LineSpacingStep, LineSpacingMin, LineSpacingMax);
        assert state.Snapshot() == before.(lineSpacing := state.lineSpacing);
        if state.lineSpacing == previous {
          return Ok(LineSpacingAtMin(state.lineSpacing));
        }
        return Ok(LineSpacingDecreased(state.lineSpacing));
      }
      if args == [] {
        return Err(MissingLineSpacing);
      }
      var value := ParseFloat(args[0]);
      if value.Err? {
        return Err(value.error);
      }
      var clamped := SpacingOf(value.value);
      state.lineSpacing := clamped;
      assert state.Snapshot() == before.(lineSpacing := clamped);
      return Ok(LineSpacingSet(clamped, Deviates(clamped, value.value)));
    }

    method ExecuteCurve(state: RenderState, variant: Option<string>, args: seq<string>) returns (r: Result<Notice, Failure>)
      modifies state
      ensures Applied(old(state.Snapshot()), state.Snapshot(), r, CurveRule(old(state.Snapshot()), variant, args))
    {
      ghost var before := state.Snapshot();
      var action := CurveChoice(variant.GetOr(""));
      if action.None? && args != [] {
        action := CurveChoice(args[0]);
      }
      assert action == CurveAction(variant, args);
      if action.None? {
        action := Some("toggle");
      }
      if action.value == "on" {
        state.curveEnabled := true;
        assert state.Snapshot() == before.(curveEnabled := true);
        return Ok(CurveSwitched(true));
      }
      if action.value == "off" {
        state.curveEnabled := false;
        assert state.Snapshot() == before.(curveEnabled := false);
        return Ok(CurveSwitched(false));
      }
      state.curveEnabled := !state.curveEnabled;
      assert state.Snapshot() == before.(curveEnabled := !before.curveEnabled);
      return Ok(CurveSwitched(state.curveEnabled));
    }

    method ExecutePosition(state: RenderState, variants: seq<string>, args: seq<string>) returns (r: Result<Notice, Failure>)
      requires directionLookup == DirectionLookup()
      modifies state
      ensures Applied(old(state.Snapshot()), state.Snapshot(), r, PositionRule(old(state.Snapshot()), variants, args))
    {
      var direction, remaining := LocateDirection(variants, args);
      if direction.None? {
        return Err(MissingDirection);
      }
      var amount := OffsetStep;
      if remaining != [] {
        var parsed := ParsePositiveInt(remaining[0]);
        if parsed.Err? {
          return Err(parsed.error);
        }
        amount := parsed.value;
      }
      r := Shift(state, DirectionOf(direction.value), amount);
    }

    /**
     * The direction of a position command: the first variant, else the
     * first argument, which is then consumed; what is left may hold the step.
     */
    method LocateDirection(variants: seq<string>, args: seq<string>) returns (direction: Option<string>, remaining: seq<string>)
      requires directionLookup == DirectionLookup()
      ensures direction.None? ==> PositionRequest(variants, args) == Err(MissingDirection)
      ensures direction.Some? ==> PositionRequest(variants, args) == Requested(direction.value, StepOf(remaining))
    {
      direction := None;
      remaining := args;
      if variants != [] {
        direction := Resolve(directionLookup, variants[0]);
      }
      if direction.Some? {
        DirectionFromVariant(variants, args, direction.value);
      } else if remaining != [] {
        direction := Resolve(directionLookup, remaining[0]);
        if direction.Some? {
          DirectionFromArgument(variants, args, direction.value);
          remaining := remaining[1..];
        }
      }
      if direction.None? {
        NoDirection(variants, args);
      }
    }

    /** Moves the coordinate of one direction, as the four branches of `_execute_position` do. */
    method Shift(state: RenderState, d: Direction, amount: int) returns (r: Result<Notice, Failure>)
      modifies state
      ensures state.Snapshot() == Move(old(state.Snapshot()), d, amount).0
      ensures r == Ok(Move(old(state.Snapshot()), d, amount).1)
    {
      ghost var before := state.Snapshot();
      var previous: int;
      var applied: int;
      if d == Up {
        previous := state.offsetY;
        state.offsetY := Clamp(previous - amount, OffsetMin, OffsetMax);
        assert state.Snapshot() == before.(offsetY := state.offsetY);
        applied := previous - state.offsetY;
        if applied == 0 {
          return Ok(AtBoundary(Up, state.offsetY));
        }
        return Ok(Moved(Up, applied, state.offsetY));
      }
      if d == Down {
        previous := state.offsetY;
        state.offsetY := Clamp(previous + amount, OffsetMin, OffsetMax);
        assert state.Snapshot() == before.(offsetY := state.offsetY);
        applied := state.offsetY - previous;
        if applied == 0 {
          return Ok(AtBoundary(Down, state.offsetY));
        }
        return Ok(Moved(Down, applied, state.offsetY));
      }
      if d == Left {
        previous := state.offsetX;
        state.offsetX := Clamp(previous - amount, OffsetMin, OffsetMax);
        assert state.Snapshot() == before.(offsetX := state.offsetX);
        applied := previous - state.offsetX;
        if applied == 0 {
          return Ok(AtBoundary(Left, state.offsetX));
        }
        return Ok(Moved(Left, applied, state.offsetX));
      }
      previous := state.offsetX;
      state.offsetX := Clamp(previous + amount, OffsetMin, OffsetMax);
      assert state.Snapshot() == before.(offsetX := state.offsetX);
      applied := state.offsetX - previous;
      if applied == 0 {
        return Ok(AtBoundary(Right, state.offsetX));
      }
      return Ok(Moved(Right, applied, state.offsetX));
    }

    method ExecuteRole(state: RenderState, remainder: string, args: seq<string>, pick: nat) returns (r: Result<Notice, Failure>)
      requires roleLookup == RoleLookup()
      modifies state
      ensures Applied(old(state.Snapshot()), state.Snapshot(), r, RoleRule(old(state.Snapshot()), remainder, args, pick))
    {
      if args != [] && Lower(args[0]) == "-r" {
        r := RandomizeRole(state, pick);
      } else {
        r := SwitchRole(state, Strip(remainder));
      }
    }

    /** The `-r` branch of `_execute_role`: `_pick_random_role` on the current role. */
    method RandomizeRole(state: RenderState, pick: nat) returns (r: Result<Notice, Failure>)
      modifies state
      ensures Applied(old(state.Snapshot()), state.Snapshot(), r, RandomRole(old(state.Snapshot()), pick))
    {
      ghost var before := state.Snapshot();
      var newRole := PickRandomRole(state.role, pick);
      state.role := newRole;
      assert state.Snapshot() == before.(role := newRole);
      return Ok(RoleRandomized(newRole));
    }

    /** The named branch of `_execute_role`: the role a non-empty name resolves to. */
    method SwitchRole(state: RenderState, candidate: string) returns (r: Result<Notice, Failure>)
      requires roleLookup == RoleLookup()
      modifies state
      ensures Applied(old(state.Snapshot()), state.Snapshot(), r, NamedRole(old(state.Snapshot()), candidate))
    {
      ghost var before := state.Snapshot();
      if candidate == [] {
        return Err(MissingRole);
      }
      var resolved := Resolve(roleLookup, candidate);
      if resolved.None? || resolved.value == [] {
        return Err(UnknownRole(candidate));
      }
      state.role := resolved.value;
      assert state.Snapshot() == before.(role := resolved.value);
      return Ok(RoleSwitched(resolved.value));
    }

    /** `_process_adjustment`: resolve the command head and run its rule on the state in place. */
    method ProcessAdjustment(state: RenderState, token: string, variants: seq<string>, remainder: string, pick: nat)
      returns (r: Result<Notice, Failure>)
      requires Built()
      modifies state
      ensures Applied(old(state.Snapshot()), state.Snapshot(), r, Process(old(state.Snapshot()), token, variants, remainder, pick))
    {
      var key := Resolve(commandLookup, token);
      if key.None? || key.value == [] {
        return Err(UnknownCommand(token));
      }
      ghost var before := state.Snapshot();
      assert Process(before, token, variants, remainder, pick) == Dispatch(before, key.value, token, variants, remainder, pick);
      if key.value == "text" {
        r := ExecuteText(state, remainder);
        return;
      }
      var args := SplitArgs(remainder);
      if key.value == "font_size" {
        r := ExecuteFontSize(state, FirstVariant(variants), args);
      } else if key.value == "line_spacing" {
        r := ExecuteLineSpacing(state, FirstVariant(variants), args);
      } else if key.value == "curve" {
        r := ExecuteCurve(state, FirstVariant(variants), args);
      } else if key.value == "position" {
        r := ExecutePosition(state, variants, args);
      } else if key.value == "role" {
        r := ExecuteRole(state, remainder, args, pick);
      } else {
        r := Err(UnsupportedCommand(token));
      }
    }

    /**
     * `draw`: on first use store a fresh state with the defaults (the message
     * as text when it is non-empty); later only replace the text, and only
     * with a non-empty message.
     */
    method Draw(e: Event) returns (headline: string)
      requires Distinct()
      modifies stateManager, stateManager.states.Values
      ensures Distinct()
      ensures StateKey(e) in stateManager.states
      ensures stateManager.states == old(stateManager.states)[StateKey(e) := stateManager.states[StateKey(e)]]
      ensures forall k | k in old(stateManager.states) && k != StateKey(e) ::
        stateManager.states[k].Snapshot() == old(stateManager.states[k].Snapshot())
      ensures StateKey(e) !in old(stateManager.states) ==>
        && fresh(stateManager.states[StateKey(e)])
        && stateManager.states[StateKey(e)].Snapshot() == Initial(Strip(e.message))
        && headline == CreatedHeadline
      ensures StateKey(e) in old(stateManager.states) ==>
        && stateManager.states[StateKey(e)].Snapshot() ==
             (if Strip(e.message) == [] then old(stateManager.states[StateKey(e)].Snapshot())
              else old(stateManager.states[StateKey(e)].Snapshot()).(text := Strip(e.message)))
        && headline == RefreshedHeadline
    {
      var key := StateKey(e);
      var message := Strip(e.message);
      headline := DrawAt(key, message);
    }

    /** The card under `key` created from `message`, or its text refreshed with a non-empty `message`. */
    method DrawAt(key: (string, string), message: string) returns (headline: string)
      requires Distinct()
      modifies stateManager, stateManager.states.Values
      ensures Distinct()
      ensures key in stateManager.states
      ensures stateManager.states == old(stateManager.states)[key := stateManager.states[key]]
      ensures forall k | k in old(stateManager.states) && k != key ::
        stateManager.states[k].Snapshot() == old(stateManager.states[k].Snapshot())
      ensures key !in old(stateManager.states) ==>
        && fresh(stateManager.states[key])
        && stateManager.states[key].Snapshot() == Initial(message)
        && headline == CreatedHeadline
      ensures key in old(stateManager.states) ==>
        && stateManager.states[key].Snapshot() ==
             (if message == [] then old(stateManager.states[key].Snapshot())
              else old(stateManager.states[key].Snapshot()).(text := message))
        && headline == RefreshedHeadline
    {
      var existing := stateManager.Get(key);
      if existing.None? {
        Create(key, message);
        return CreatedHeadline;
      }
      assert forall k | k in stateManager.states && k != key :: stateManager.states[k] != existing.value;
      Refresh(existing.value, message);
      return RefreshedHeadline;
    }

    /** A fresh state with the defaults, stored under `key`. */
    method Create(key: (string, string), message: string)
      requires Distinct() && key !in stateManager.states
      modifies stateManager
      ensures Distinct()
      ensures key in stateManager.states && fresh(stateManager.states[key])
      ensures stateManager.states == old(stateManager.states)[key := stateManager.states[key]]
      ensures stateManager.states[key].Snapshot() == Initial(message)
    {
      var state := new RenderState(Initial(message));
      stateManager.Set(key, state);
      assert state !in old(stateManager.states).Values;
    }

    /** The stored card's text replaced by a non-empty message; an empty one leaves it as it was. */
    static method Refresh(state: RenderState, message: string)
      modifies state
      ensures state.Snapshot() == if message == [] then old(state.Snapshot()) else old(state.Snapshot()).(text := message)
    {
      if message != [] {
        ghost var before := state.Snapshot();
        state.text := message;
        assert state.Snapshot() == before.(text := message);
      }
    }

    /**
     * `adjust`: the guide for an empty message; otherwise the stored state
     * (or `MissingState`), then the first token split into command and
     * variants, and the rule applied to the state in place.
     */
    method Adjust(e: Event, pick: nat) returns (reply: Reply)
      requires Built() && Distinct()
      modifies stateManager.states.Values
      ensures Strip(e.message) == [] ==> reply == Guidance
      ensures Strip(e.message) != [] && StateKey(e) !in old(stateManager.states) ==> reply == Refused(MissingState)
      ensures Distinct() && unchanged(stateManager)
      ensures forall k | k in old(stateManager.states) && (Strip(e.message) == [] || k != StateKey(e)) ::
        old(stateManager.states[k]).Snapshot() == old(stateManager.states[k].Snapshot())
      ensures Strip(e.message) != [] && StateKey(e) in old(stateManager.states) ==>
        var state := old(stateManager.states[StateKey(e)]);
        var request := ParseAdjustment(Strip(e.message));
        Answered(old(state.Snapshot()), state.Snapshot(), reply,
                 Process(old(state.Snapshot()), request.0, request.1, request.2, pick))
    {
      var message := Strip(e.message);
      if message == [] {
        return Guidance;
      }
      var key := StateKey(e);
      var required := RequireState(e);
      if required.Err? {
        return Refused(required.error);
      }
      var state := required.value;
      assert (stateManager as object) != state;
      reply := Apply(state, message, pick);
      assert forall k | k in stateManager.states && k != key :: stateManager.states[k] != state;
    }

    /** The adjustment of one stored card: tokenise the message, then process the command in place. */
    method Apply(state: RenderState, message: string, pick: nat) returns (reply: Reply)
      requires Built()
      modifies state
      ensures var request := ParseAdjustment(message);
        Answered(old(state.Snapshot()), state.Snapshot(), reply, Process(old(state.Snapshot()), request.0, request.1, request.2, pick))
    {
      var first, remainder := ExtractFirstToken(message).0, ExtractFirstToken(message).1;
      var command, variants := SplitToken(first).0, SplitToken(first).1;
      var r := ProcessAdjustment(state, command, variants, remainder, pick);
      if r.Err? {
        return Refused(r.error);
      }
      return Adjusted(r.value);
    }
  }
}
