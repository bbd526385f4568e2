/** The playback state machine: a fixed table of (from, to, reason) rows, a
    current and a previous state, and the events it emits, kept in a ghost
    log. */
module PlaybackStateMachine {
  import opened Common

  /** A state name the table does not list: neither one of the seven
      spellings nor the empty string, which the constructor turns into NULL. */
  type UnlistedName = s: string | s != "" && !ListedStateName(s) witness "x"

  /** Whether a name is the spelling of one of the seven states. */
  predicate ListedStateName(s: string)
  {
    s in {"null", "ready", "metadata-loading", "paused", "playing", "ended", "error"}
  }

  /** A playback state. The constructor takes a state name without
      checking it, so a name that is not one of the seven is kept as given;
      a listed name can only be its own constructor (see StateOfName). */
  datatype State = Null | Ready | MetadataLoading | Paused | Playing | Ended | Error | Unlisted(name: UnlistedName)

  /** An event reason that is not one of the thirteen spellings (the empty
      string, which is falsy, included). */
  type OtherReasonName = s: string | !ListedReasonName(s) witness ""

  /** Whether a name is the spelling of one of the thirteen reasons. */
  predicate ListedReasonName(s: string)
  {
    s in {
      "media-error", "media-recover", "media-engine-init", "media-loading-progress", "media-clock-update",
      "media-duration-change", "media-autoplay", "media-manual-play", "media-pause", "media-buffer-underrun",
      "media-seek", "media-end", "state-transition-fail"}
  }

  /** A transition reason; an event reason that is not one of these is kept
      as given, and a listed one can only be its own constructor (see
      ReasonOfName). */
  datatype Reason =
    | MediaError | MediaRecover | MediaEngineInit | MediaLoadingProgress | MediaClockUpdate
    | MediaDurationChange | MediaAutoPlay | MediaManualPlay | MediaPause | MediaBufferUnderrun
    | MediaSeek | MediaEnd | StateTransitionFail | OtherReason(name: OtherReasonName)

  datatype Transition = Transition(from: State, to: State, reason: Reason)

  /** Row i of the transition table (indices past the end repeat the last
      row; only indices below 23 are ever used). */
  function Row(i: int): Transition
  {
    if i == 0 then Transition(Null, Ready, MediaEngineInit)
    else if i == 1 then Transition(Null, Ready, MediaManualPlay)
    else if i == 2 then Transition(Ready, MetadataLoading, MediaBufferUnderrun)
    else if i == 3 then Transition(Ready, MetadataLoading, MediaLoadingProgress)
    else if i == 4 then Transition(MetadataLoading, Paused, MediaDurationChange)
    else if i == 5 then Transition(MetadataLoading, Error, MediaError)
    else if i == 6 then Transition(Paused, Paused, MediaEngineInit)
    else if i == 7 then Transition(Paused, Paused, MediaAutoPlay)
    else if i == 8 then Transition(Paused, Paused, MediaManualPlay)
    else if i == 9 then Transition(Paused, Paused, MediaSeek)
    else if i == 10 then Transition(Paused, Paused, MediaBufferUnderrun)
    else if i == 11 then Transition(Paused, Paused, MediaLoadingProgress)
    else if i == 12 then Transition(Paused, Playing, MediaClockUpdate)
    else if i == 13 then Transition(Playing, Playing, MediaClockUpdate)
    else if i == 14 then Transition(Playing, Paused, MediaPause)
    else if i == 15 then Transition(Playing, Paused, MediaBufferUnderrun)
    else if i == 16 then Transition(Playing, Paused, MediaSeek)
    else if i == 17 then Transition(Playing, Paused, MediaError)
    else if i == 18 then Transition(Playing, Ended, MediaEnd)
    else if i == 19 then Transition(Ended, Paused, MediaSeek)
    else if i == 20 then Transition(Ended, Paused, MediaManualPlay)
    else if i == 21 then Transition(Paused, Error, MediaError)
    else Transition(Error, Paused, MediaRecover)
  }


  /** The transition table, in its order. */
  function Transitions(): (rows: seq<Transition>)
    ensures |rows| == 23 && forall i :: 0 <= i < 23 ==> rows[i] == Row(i)
  {
    seq(23, Row)
  }

  /** The state a constructor string names; the empty string (falsy) falls
      back to NULL. */
  function StateOfName(name: string): State
  {
    if name == "" || name == "null" then Null
    else if name == "ready" then Ready
    else if name == "metadata-loading" then MetadataLoading
    else if name == "paused" then Paused
    else if name == "playing" then Playing
    else if name == "ended" then Ended
    else if name == "error" then Error
    else Unlisted(name)
  }

  /** The spelling of a state. */
  function NameOfState(state: State): string
  {
    match state
    case Null => "null"
    case Ready => "ready"
    case MetadataLoading => "metadata-loading"
    case Paused => "paused"
    case Playing => "playing"
    case Ended => "ended"
    case Error => "error"
    case Unlisted(name) => name
  }

  /** Every state is read back from its spelling, and every non-empty name
      is the spelling of the state it reads as: a name has exactly one
      state. */
  lemma StateNameRoundTrip(state: State, name: string)
    ensures StateOfName(NameOfState(state)) == state
    ensures name != "" ==> NameOfState(StateOfName(name)) == name
  {
  }

  /** The reason an event reason string names. */
  function ReasonOfName(name: string): Reason
  {
    if name == "media-error" then MediaError
    else if name == "media-recover" then MediaRecover
    else if name == "media-engine-init" then MediaEngineInit
    else if name == "media-loading-progress" then MediaLoadingProgress
    else if name == "media-clock-update" then MediaClockUpdate
    else if name == "media-duration-change" then MediaDurationChange
    else if name == "media-autoplay" then MediaAutoPlay
    else if name == "media-manual-play" then MediaManualPlay
    else if name == "media-pause" then MediaPause
    else if name == "media-buffer-underrun" then MediaBufferUnderrun
    else if name == "media-seek" then MediaSeek
    else if name == "media-end" then MediaEnd
    else if name == "state-transition-fail" then StateTransitionFail
    else OtherReason(name)
  }

  /** The spelling of a reason. */
  function NameOfReason(reason: Reason): string
  {
    match reason
    case MediaError => "media-error"
    case MediaRecover => "media-recover"
    case MediaEngineInit => "media-engine-init"
    case MediaLoadingProgress => "media-loading-progress"
    case MediaClockUpdate => "media-clock-update"
    case MediaDurationChange => "media-duration-change"
    case MediaAutoPlay => "media-autoplay"
    case MediaManualPlay => "media-manual-play"
    case MediaPause => "media-pause"
    case MediaBufferUnderrun => "media-buffer-underrun"
    case MediaSeek => "media-seek"
    case MediaEnd => "media-end"
    case StateTransitionFail => "state-transition-fail"
    case OtherReason(name) => name
  }

  /** Reasons and their spellings correspond one to one. */
  lemma ReasonNameRoundTrip(reason: Reason, name: string)
    ensures ReasonOfName(NameOfReason(reason)) == reason
    ensures NameOfReason(ReasonOfName(name)) == name
  {
    ReasonReadBack(reason);
    NameReadBack(name);
  }

  /** A reason is read back from its spelling. */
  lemma ReasonReadBack(reason: Reason)
    ensures ReasonOfName(NameOfReason(reason)) == reason
  {
    match reason
    case OtherReason(name) =>
      assert !ListedReasonName(name);
    case _ =>
  }

  /** A name is the spelling of the reason it reads as. */
  lemma NameReadBack(name: string)
    ensures NameOfReason(ReasonOfName(name)) == name
  {
    if !ListedReasonName(name) {
      assert ReasonOfName(name) == OtherReason(name);
    }
  }

  /** Whether an event reason is truthy: a missing reason and the empty
      string are falsy. */
  predicate Truthy(reason: Option<Reason>)
  {
    reason.Some? && reason.value != OtherReason("")
  }

  /** Whether a row is selected by findPossibleTransitions_: its source (or,
      backward, its target) is the state, and its reason is the one given,
      or any reason when the given one is falsy. */
  predicate Selects(t: Transition, state: State, reason: Option<Reason>, backward: bool)
  {
    (if backward then t.to else t.from) == state && (!Truthy(reason) || t.reason == reason.value)
  }

  /** The filter over the rows, keeping their order. */
  function Filter(rows: seq<Transition>, state: State, reason: Option<Reason>, backward: bool): (ts: seq<Transition>)
    ensures |ts| <= |rows|
    ensures forall t :: t in ts <==> t in rows && Selects(t, state, reason, backward)
  {
    if rows == [] then []
    else
      var rest := Filter(rows[1..], state, reason, backward);
      if Selects(rows[0], state, reason, backward) then [rows[0]] + rest else rest
  }

  /** Filtering two blocks of rows one after the other is filtering each
      block: the filter keeps every selected row, once, in table order. */
  lemma {:induction false} FilterConcat(a: seq<Transition>, b: seq<Transition>, state: State, reason: Option<Reason>, backward: bool)
    ensures Filter(a + b, state, reason, backward) == Filter(a, state, reason, backward) + Filter(b, state, reason, backward)
  {
    if a != [] {
      assert (a + b)[0] == a[0] && (a + b)[1..] == a[1..] + b;
      FilterConcat(a[1..], b, state, reason, backward);
      FilterFirst(a + b, state, reason, backward);
      FilterFirst(a, state, reason, backward);
      var head := if Selects(a[0], state, reason, backward) then [a[0]] else [];
      var fa, fb := Filter(a[1..], state, reason, backward), Filter(b, state, reason, backward);
      assert head + (fa + fb) == (head + fa) + fb;
    } else {
      assert a + b == b;
    }
  }

  /** The filter of a non-empty block: its first row if selected, then the
      filter of the rest. */
  lemma FilterFirst(rows: seq<Transition>, state: State, reason: Option<Reason>, backward: bool)
    requires rows != []
    ensures Filter(rows, state, reason, backward)
      == (if Selects(rows[0], state, reason, backward) then [rows[0]] else []) + Filter(rows[1..], state, reason, backward)
  {
    if !Selects(rows[0], state, reason, backward) {
      assert [] + Filter(rows[1..], state, reason, backward) == Filter(rows[1..], state, reason, backward);
    }
  }

  /** In particular, one more row at the end is kept exactly when it is
      selected, after the rows kept before it. */
  lemma FilterAppend(rows: seq<Transition>, t: Transition, state: State, reason: Option<Reason>, backward: bool)
    ensures Filter(rows + [t], state, reason, backward)
      == Filter(rows, state, reason, backward) + (if Selects(t, state, reason, backward) then [t] else [])
  {
    FilterConcat(rows, [t], state, reason, backward);
    assert [t][1..] == [];
  }

  /** Rows that are all selected are all kept, in order. */
  lemma {:induction false} FilterAllSelected(rows: seq<Transition>, state: State, reason: Option<Reason>, backward: bool)
    requires forall i :: 0 <= i < |rows| ==> Selects(rows[i], state, reason, backward)
    ensures Filter(rows, state, reason, backward) == rows
  {
    if rows != [] {
      FilterAllSelected(rows[1..], state, reason, backward);
      assert [rows[0]] + rows[1..] == rows;
    }
  }

  /** Rows none of which is selected are all dropped. */
  lemma {:induction false} FilterNoneSelected(rows: seq<Transition>, state: State, reason: Option<Reason>, backward: bool)
    requires forall i :: 0 <= i < |rows| ==> !Selects(rows[i], state, reason, backward)
    ensures Filter(rows, state, reason, backward) == []
  {
    if rows != [] {
      FilterNoneSelected(rows[1..], state, reason, backward);
    }
  }

  /** Rows of which exactly one contiguous block is selected keep that
      block. */
  lemma FilterBlock(rows: seq<Transition>, lo: int, hi: int, state: State, reason: Option<Reason>, backward: bool)
    requires 0 <= lo <= hi <= |rows|
    requires forall i :: 0 <= i < |rows| ==> (Selects(rows[i], state, reason, backward) <==> lo <= i < hi)
    ensures Filter(rows, state, reason, backward) == rows[lo..hi]
  {
    assert rows == rows[..lo] + rows[lo..hi] + rows[hi..];
    FilterConcat(rows[..lo] + rows[lo..hi], rows[hi..], state, reason, backward);
    FilterConcat(rows[..lo], rows[lo..hi], state, reason, backward);
    FilterNoneSelected(rows[..lo], state, reason, backward);
    FilterAllSelected(rows[lo..hi], state, reason, backward);
    FilterNoneSelected(rows[hi..], state, reason, backward);
  }

  /** A falsy reason, the empty string included, filters like no reason. */
  lemma {:induction false} FalsyReasonSelectsAll(rows: seq<Transition>, state: State, reason: Option<Reason>, backward: bool)
    requires !Truthy(reason)
    ensures Filter(rows, state, reason, backward) == Filter(rows, state, None, backward)
  {
    if rows != [] {
      FalsyReasonSelectsAll(rows[1..], state, reason, backward);
    }
  }

  /** findPossibleTransitions_: the table rows that leave (or, backward,
      enter) the state, restricted to the reason when one is given. */
  function FindPossibleTransitions(state: State, reason: Option<Reason>, backward: bool): (ts: seq<Transition>)
    ensures forall t :: t in ts <==> t in Transitions() && Selects(t, state, reason, backward)
  {
    Filter(Transitions(), state, reason, backward)
  }

  /** Where a row is keyed: its source and its reason. */
  function Key(t: Transition): (State, Reason)
  {
    (t.from, t.reason)
  }

  /** No two rows share a key. */
  predicate KeysDistinct(rows: seq<Transition>)
  {
    forall i, j :: 0 <= i < j < |rows| ==> Key(rows[i]) != Key(rows[j])
  }

  /** No row occurs twice. */
  predicate RowsDistinct(rows: seq<Transition>)
  {
    forall i, j :: 0 <= i < j < |rows| ==> rows[i] != rows[j]
  }

  /** The table's keys are distinct. */
  lemma TableKeysDistinct()
    ensures KeysDistinct(Transitions())
  {
    forall i, j | 0 <= i < j < 23 ensures Key(Row(i)) != Key(Row(j)) {
      RowKeysDiffer(i, j);
    }
  }

  /** Two different rows of the table have different keys. */
  lemma RowKeysDiffer(i: int, j: int)
    requires 0 <= i < j < 23
    ensures Key(Row(i)) != Key(Row(j))
  {
    if i < 6 {
    } else if i < 12 {
    } else if i < 18 {
    }
  }

  /** Rows with distinct keys are distinct rows. */
  lemma DistinctKeysDistinctRows(rows: seq<Transition>)
    requires KeysDistinct(rows)
    ensures RowsDistinct(rows)
  {
    forall i, j | 0 <= i < j < |rows| ensures rows[i] != rows[j] {
      assert Key(rows[i]) != Key(rows[j]);
    }
  }

  /** Rows with distinct keys give at most one row for a state and a reason. */
  lemma {:induction false} FilterAtMostOne(rows: seq<Transition>, state: State, reason: Reason)
    requires KeysDistinct(rows) && Truthy(Some(reason))
    ensures |Filter(rows, state, Some(reason), false)| <= 1
  {
    if rows != [] {
      assert KeysDistinct(rows[1..]) by {
        forall i, j | 0 <= i < j < |rows| - 1 ensures Key(rows[1..][i]) != Key(rows[1..][j]) {
          assert rows[1..][i] == rows[i + 1] && rows[1..][j] == rows[j + 1];
        }
      }
      FilterAtMostOne(rows[1..], state, reason);
      if Selects(rows[0], state, Some(reason), false) {
        forall t | t in rows[1..] ensures !Selects(t, state, Some(reason), false) {
          var k :| 0 <= k < |rows| - 1 && rows[1..][k] == t;
          assert Key(rows[0]) != Key(rows[k + 1]);
        }
        FirstTwo(Filter(rows[1..], state, Some(reason), false));
      }
    }
  }

  /** The table of the state machine is deterministic: with a truthy reason
      given, at most one row applies, so the "more than one" error cannot
      fire. */
  lemma TableDeterministic(state: State, reason: Reason)
    requires Truthy(Some(reason))
    ensures |FindPossibleTransitions(state, Some(reason), false)| <= 1
  {
    TableKeysDistinct();
    FilterAtMostOne(Transitions(), state, reason);
  }

  /** Filtering rows without repeats gives rows without repeats. */
  lemma {:induction false} FilterDistinct(rows: seq<Transition>, state: State, reason: Option<Reason>, backward: bool)
    requires RowsDistinct(rows)
    ensures RowsDistinct(Filter(rows, state, reason, backward))
  {
    if rows != [] {
      assert RowsDistinct(rows[1..]) by {
        forall i, j | 0 <= i < j < |rows| - 1 ensures rows[1..][i] != rows[1..][j] {
          assert rows[1..][i] == rows[i + 1] && rows[1..][j] == rows[j + 1];
        }
      }
      FilterDistinct(rows[1..], state, reason, backward);
      var rest := Filter(rows[1..], state, reason, backward);
      if Selects(rows[0], state, reason, backward) {
        assert rows[0] !in rest;
        var ts := [rows[0]] + rest;
        forall i, j | 0 <= i < j < |ts| ensures ts[i] != ts[j] {
          if i == 0 {
            assert ts[j] == rest[j - 1];
          } else {
            assert ts[i] == rest[i - 1] && ts[j] == rest[j - 1];
          }
        }
      }
    }
  }

  /** Two different members make at least two elements. */
  lemma TwoMembers(ts: seq<Transition>, a: Transition, b: Transition)
    requires a in ts && b in ts && a != b
    ensures |ts| >= 2
  {
  }

  /** A sequence without repeats whose members are all one row has at most
      one element. */
  lemma OnlyMember(ts: seq<Transition>, a: Transition)
    requires RowsDistinct(ts)
    requires forall t :: t in ts ==> t == a
    ensures |ts| <= 1
  {
    FirstTwo(ts);
  }

  /** The first two elements of a sequence are members of it. */
  lemma FirstTwo(ts: seq<Transition>)
    ensures |ts| >= 1 ==> ts[0] in ts
    ensures |ts| >= 2 ==> ts[1] in ts
  {
  }

  /** A row of the table is one of the 23 rows Row lists. */
  lemma RowOfTable(t: Transition) returns (i: int)
    requires t in Transitions()
    ensures 0 <= i < 23 && t == Row(i)
  {
    i :| 0 <= i < 23 && Transitions()[i] == t;
  }

  /** The only row leaving ERROR is the last one, the recovery to PAUSED. */
  lemma OnlyRowFromError(t: Transition)
    requires t in Transitions() && t.from == Error
    ensures t == Row(22) && t.to == Paused
  {
    var i := RowOfTable(t);
  }

  /** Every row leaves one of the seven listed states. */
  lemma NoRowFromUnlisted(t: Transition)
    requires t in Transitions()
    ensures !t.from.Unlisted?
  {
    var i := RowOfTable(t);
  }

  /** Row i, read through the table. */
  lemma RowInTable(i: int)
    requires 0 <= i < 23
    ensures Row(i) in Transitions()
  {
    assert Transitions()[i] == Row(i);
  }

  /** Two rows leaving the same state make two reasonless candidates. */
  lemma TwoRowsFrom(state: State, i: int, j: int)
    requires 0 <= i < 23 && 0 <= j < 23 && Row(i) != Row(j) && Row(i).from == state && Row(j).from == state
    ensures |FindPossibleTransitions(state, None, false)| >= 2
  {
    RowInTable(i);
    RowInTable(j);
    TwoMembers(FindPossibleTransitions(state, None, false), Row(i), Row(j));
  }

  /** When exactly one row of rows without repeats is selected, the filter
      keeps that row alone. */
  lemma FilterSingle(rows: seq<Transition>, state: State, reason: Option<Reason>, backward: bool, a: Transition)
    requires RowsDistinct(rows) && a in rows && Selects(a, state, reason, backward)
    requires forall t :: t in rows && Selects(t, state, reason, backward) ==> t == a
    ensures Filter(rows, state, reason, backward) == [a]
  {
    var ts := Filter(rows, state, reason, backward);
    FilterDistinct(rows, state, reason, backward);
    OnlyMember(ts, a);
    assert a in ts;
  }

  /** Without a reason, ERROR has exactly one applicable row, the recovery
      to PAUSED. */
  lemma ReasonlessFromError(state: State)
    requires state == Error
    ensures FindPossibleTransitions(state, None, false) == [Row(22)]
  {
    RowInTable(22);
    TableKeysDistinct();
    DistinctKeysDistinctRows(Transitions());
    forall t | t in Transitions() && Selects(t, state, None, false) ensures t == Row(22) {
      OnlyRowFromError(t);
    }
    FilterSingle(Transitions(), state, None, false, Row(22));
  }

  /** From PLAYING, the reason spelled "media-seek" selects row 16 alone,
      the move to PAUSED. */
  lemma SeekFromPlaying()
    ensures FindPossibleTransitions(Playing, Some(ReasonOfName("media-seek")), false) == [Row(16)]
  {
    assert ReasonOfName("media-seek") == MediaSeek;
    SeekSelectsRow16();
  }

  /** From PLAYING, MEDIA_SEEK selects row 16 alone. */
  lemma SeekSelectsRow16()
    ensures FindPossibleTransitions(Playing, Some(MediaSeek), false) == [Row(16)]
  {
    RowInTable(16);
    TableKeysDistinct();
    DistinctKeysDistinctRows(Transitions());
    forall t | t in Transitions() && Selects(t, Playing, Some(MediaSeek), false) ensures t == Row(16) {
      var i := RowOfTable(t);
    }
    FilterSingle(Transitions(), Playing, Some(MediaSeek), false, Row(16));
  }

  /** The last row of the table is the recovery from ERROR to PAUSED. */
  lemma LastRow()
    ensures Row(22) == Transition(Error, Paused, MediaRecover)
  {
  }

  /** From ERROR without a reason the one applicable row leads to PAUSED. */
  lemma ErrorRecovers(state: State)
    requires state == Error
    ensures |FindPossibleTransitions(state, None, false)| == 1
    ensures FindPossibleTransitions(state, None, false)[0].to == Paused
  {
    ReasonlessFromError(state);
    LastRow();
  }

  /** No row leaves a state the table does not list. */
  lemma NoneFromUnlisted(state: State)
    requires state.Unlisted?
    ensures FindPossibleTransitions(state, None, false) == []
  {
    var ts := FindPossibleTransitions(state, None, false);
    if ts != [] {
      assert ts[0] in ts;
      NoRowFromUnlisted(ts[0]);
    }
  }

  /** Without a reason, every row leaving the state applies; ERROR is the
      only state with exactly one such row, which leads to PAUSED. */
  lemma ReasonlessOnlyFromError(state: State)
    ensures |FindPossibleTransitions(state, None, false)| == 1 <==> state == Error
    ensures state == Error ==> FindPossibleTransitions(state, None, false)[0].to == Paused
  {
    match state
    case Null => TwoRowsFrom(state, 0, 1);
    case Ready => TwoRowsFrom(state, 2, 3);
    case MetadataLoading => TwoRowsFrom(state, 4, 5);
    case Paused => TwoRowsFrom(state, 6, 7);
    case Playing => TwoRowsFrom(state, 13, 14);
    case Ended => TwoRowsFrom(state, 19, 20);
    case Error => ErrorRecovers(state);
    case Unlisted(_) => NoneFromUnlisted(state);
  }

  /** A snapshot of the HTMLMediaElement properties the lookup reads. */
  datatype MediaElement = MediaElement(hasError: bool, ended: bool, readyState: int, src: string, paused: bool)

  /** lookupStateOfMediaElement: an error wins, then having ended; a
      readyState of 0 is READY with a source and NULL without one; 1 to 4
      is PAUSED or PLAYING; any other readyState gives no state
      (undefined). */
  function LookupStateOfMediaElement(el: MediaElement): (s: Option<State>)
    ensures el.hasError ==> s == Some(Error)
    ensures !el.hasError && el.ended ==> s == Some(Ended)
    ensures !el.hasError && !el.ended && el.readyState == 0 ==> s == Some(if el.src != "" then Ready else Null)
    ensures !el.hasError && !el.ended && 1 <= el.readyState <= 4 ==> s == Some(if el.paused then Paused else Playing)
    ensures s == None <==> !el.hasError && !el.ended && !(0 <= el.readyState <= 4)
  {
    if el.hasError then Some(Error)
    else if el.ended then Some(Ended)
    else if el.readyState == 0 then (if el.src != "" then Some(Ready) else Some(Null))
    else if 1 <= el.readyState <= 4 then (if el.paused then Some(Paused) else Some(Playing))
    else None
  }

  /** What the constructor can be given: a state name, a media element,
      `null` (typeof 'object'), a falsy non-object (undefined, 0, false) or
      any other truthy value. */
  datatype ConstructorArgument = StateName(name: string) | Element(el: MediaElement) | NullArgument | Falsy | OtherTruthy

  /** The initial state the constructor settles on, or why it throws: a
      string is taken unchecked, an object goes through the lookup (and
      `null` fails on its first property read), another truthy value is
      refused; a missing state becomes NULL. */
  function InitialState(arg: ConstructorArgument): (r: Result<State, string>)
    ensures arg.StateName? ==> r == Ok(StateOfName(arg.name))
    ensures arg.Element? && LookupStateOfMediaElement(arg.el).Some? ==> r == Ok(LookupStateOfMediaElement(arg.el).value)
    ensures arg.Element? && LookupStateOfMediaElement(arg.el) == None ==> r == Ok(Null)
    ensures arg == Falsy ==> r == Ok(Null)
    ensures r.Err? <==> arg == NullArgument || arg == OtherTruthy
    ensures arg == OtherTruthy ==> r == Err("Constructor argument for PlaybackStateMachine is invalid")
  {
    match arg
    case StateName(name) => Ok(StateOfName(name))
    case Element(el) =>
      (match LookupStateOfMediaElement(el)
       case Some(s) => Ok(s)
       case None => Ok(Null))
    case NullArgument => Err("TypeError: Cannot read property 'error' of null")
    case Falsy => Ok(Null)
    case OtherTruthy => Err("Constructor argument for PlaybackStateMachine is invalid")
  }

  /** The error value notifyError_ records. */
  datatype Fault = Fault(message: string)

  /** An emitted event. */
  datatype Event = StateTransitionEvent(reason: Option<Reason>) | FailureEvent(fault: Fault)

  /** Why triggerStateTransition throws. */
  datatype TriggerError = NoPossibleTransition(reason: Option<Reason>, from: State) | MoreThanOnePossibleTransition(reason: Option<Reason>)

  class StateMachine {
    var state: State
    var previousState: Option<State>
    var error: Option<Fault>
    ghost var events: seq<Event>

    /** The constructor once the initial state is settled (see
        InitialState and NewStateMachine). */
    constructor(initial: State)
      ensures state == initial && previousState == None && error == None && events == []
    {
      state := initial;
      previousState := None;
      error := None;
      events := [];
    }

    /** triggerStateTransition: the one applicable row moves the machine to
        its target and emits one STATE_TRANSITION event with the reason;
        none or several applicable rows throw and change nothing. */
    method TriggerStateTransition(reason: Option<Reason>) returns (r: Result<(), TriggerError>)
      modifies this
      ensures var ts := FindPossibleTransitions(old(state), reason, false);
        && (|ts| == 0 ==> r == Err(NoPossibleTransition(reason, old(state))))
        && (|ts| > 1 ==> r == Err(MoreThanOnePossibleTransition(reason)))
        && (|ts| == 1 ==> (&& r == Ok(()) && previousState == Some(old(state)) && state == ts[0].to
                           && events == old(events) + [StateTransitionEvent(reason)]))
      ensures r.Err? ==> state == old(state) && previousState == old(previousState) && events == old(events)
      ensures Truthy(reason) ==> !(r.Err? && r.error.MoreThanOnePossibleTransition?)
      ensures error == old(error)
    {
      var possible := FindPossibleTransitions(state, reason, false);
      if Truthy(reason) {
        TableDeterministic(state, reason.value);
      }
      if |possible| == 0 {
        return Err(NoPossibleTransition(reason, state));
      }
      if |possible| != 1 {
        return Err(MoreThanOnePossibleTransition(reason));
      }
      previousState := Some(state);
      state := possible[0].to;
      events := events + [StateTransitionEvent(reason)];
      return Ok(());
    }

    /** notifyError_: records the error and emits FAILURE; the states stay. */
    method NotifyError(fault: Fault)
      modifies this
      ensures error == Some(fault) && events == old(events) + [FailureEvent(fault)]
      ensures state == old(state) && previousState == old(previousState)
    {
      error := Some(fault);
      events := events + [FailureEvent(fault)];
    }

    /** getNextPossibleStates of the current state. */
    function GetNextPossibleStates(): (next: seq<State>)
      reads this
      ensures next == NextPossibleStates(state)
    {
      NextPossibleStates(state)
    }

    /** getPreviousPossibleStates of the current state. */
    function GetPreviousPossibleStates(): (previous: seq<State>)
      reads this
      ensures previous == PreviousPossibleStates(state)
    {
      PreviousPossibleStates(state)
    }
  }

  /** The targets of the given rows, in order. */
  function Targets(ts: seq<Transition>): (states: seq<State>)
    ensures |states| == |ts| && forall i :: 0 <= i < |ts| ==> states[i] == ts[i].to
  {
    seq(|ts|, i requires 0 <= i < |ts| => ts[i].to)
  }

  /** The sources of the given rows, in order. */
  function Sources(ts: seq<Transition>): (states: seq<State>)
    ensures |states| == |ts| && forall i :: 0 <= i < |ts| ==> states[i] == ts[i].from
  {
    seq(|ts|, i requires 0 <= i < |ts| => ts[i].from)
  }

  /** The targets of the rows a filter keeps are the targets of the rows
      it selects. */
  lemma TargetsOfFilter(rows: seq<Transition>, state: State)
    ensures var ts := Filter(rows, state, None, false);
      forall s :: s in Targets(ts) <==> exists t :: t in rows && t.from == state && t.to == s
  {
    var ts := Filter(rows, state, None, false);
    forall s | s in Targets(ts) ensures exists t :: t in rows && t.from == state && t.to == s {
      var i :| 0 <= i < |ts| && Targets(ts)[i] == s;
      assert ts[i] in ts;
    }
    forall s | exists t :: t in rows && t.from == state && t.to == s ensures s in Targets(ts) {
      var t :| t in rows && t.from == state && t.to == s;
      assert t in ts;
      var i :| 0 <= i < |ts| && ts[i] == t;
      assert Targets(ts)[i] == s;
    }
  }

  /** The sources of the rows a backward filter keeps are the sources of
      the rows it selects. */
  lemma SourcesOfFilter(rows: seq<Transition>, state: State)
    ensures var ts := Filter(rows, state, None, true);
      forall s :: s in Sources(ts) <==> exists t :: t in rows && t.to == state && t.from == s
  {
    var ts := Filter(rows, state, None, true);
    forall s | s in Sources(ts) ensures exists t :: t in rows && t.to == state && t.from == s {
      var i :| 0 <= i < |ts| && Sources(ts)[i] == s;
      assert ts[i] in ts;
    }
    forall s | exists t :: t in rows && t.to == state && t.from == s ensures s in Sources(ts) {
      var t :| t in rows && t.to == state && t.from == s;
      assert t in ts;
      var i :| 0 <= i < |ts| && ts[i] == t;
      assert Sources(ts)[i] == s;
    }
  }

  /** The targets of the rows that leave the state. */
  function NextStatesIn(rows: seq<Transition>, state: State): (next: seq<State>)
    ensures forall s :: s in next <==> exists t :: t in rows && t.from == state && t.to == s
  {
    TargetsOfFilter(rows, state);
    Targets(Filter(rows, state, None, false))
  }

  /** The sources of the rows that enter the state. */
  function PreviousStatesIn(rows: seq<Transition>, state: State): (previous: seq<State>)
    ensures forall s :: s in previous <==> exists t :: t in rows && t.to == state && t.from == s
  {
    SourcesOfFilter(rows, state);
    Sources(Filter(rows, state, None, true))
  }

  /** getNextPossibleStates: one entry per reasonless possible transition,
      in table order, so a state is listed exactly when some row leads to it
      from the given one, and as often as such rows occur. */
  function NextPossibleStates(state: State): (next: seq<State>)
    ensures next == Targets(FindPossibleTransitions(state, None, false))
    ensures forall s :: s in next <==> exists t :: t in Transitions() && t.from == state && t.to == s
  {
    NextStatesIn(Transitions(), state)
  }

  /** getPreviousPossibleStates: one entry per reasonless possible backward
      transition, in table order, so a state is listed exactly when some row
      leads from it to the given one, and as often as such rows occur. */
  function PreviousPossibleStates(state: State): (previous: seq<State>)
    ensures previous == Sources(FindPossibleTransitions(state, None, true))
    ensures forall s :: s in previous <==> exists t :: t in Transitions() && t.to == state && t.from == s
  {
    PreviousStatesIn(Transitions(), state)
  }

  /** From PLAYING the next states repeat PAUSED once per row that leads
      there, in the order of the table. */
  lemma NextFromPlaying()
    ensures NextPossibleStates(Playing) == [Playing, Paused, Paused, Paused, Paused, Ended]
  {
    PlayingTransitions();
    var next := NextPossibleStates(Playing);
    assert |next| == 6;
    assert next[0] == Row(13).to && next[1] == Row(14).to && next[2] == Row(15).to;
    assert next[3] == Row(16).to && next[4] == Row(17).to && next[5] == Row(18).to;
  }

  /** The transitions leaving PLAYING are rows 13 to 18, in order. */
  lemma PlayingTransitions()
    ensures FindPossibleTransitions(Playing, None, false) == Transitions()[13..19]
  {
    RowsFromPlaying();
    FilterBlock(Transitions(), 13, 19, Playing, None, false);
  }

  /** Rows 13 to 18 are the rows leaving PLAYING. */
  lemma RowsFromPlaying()
    ensures forall i :: 0 <= i < 23 ==> (Row(i).from == Playing <==> 13 <= i < 19)
  {
    forall i | 0 <= i < 23 ensures (Row(i).from == Playing <==> 13 <= i < 19) {
      if i < 13 {
      } else if i < 19 {
      }
    }
  }

  /** Into READY the previous states list NULL twice, once per row. */
  lemma PreviousOfReady()
    ensures PreviousPossibleStates(Ready) == [Null, Null]
  {
    var rows := Transitions();
    forall i | 0 <= i < 23 ensures (Row(i).to == Ready <==> 0 <= i < 2) {
    }
    FilterBlock(rows, 0, 2, Ready, None, true);
  }

  /** The constructor: the machine starts in the settled initial state with
      no previous state and no error, or the constructor throws. */
  method NewStateMachine(arg: ConstructorArgument) returns (r: Result<StateMachine, string>)
    ensures r.Err? <==> InitialState(arg).Err?
    ensures r.Ok? ==> (&& fresh(r.value) && r.value.state == InitialState(arg).value
                       && r.value.previousState == None && r.value.error == None && r.value.events == [])
  {
    match InitialState(arg)
    case Err(message) =>
      return Err(message);
    case Ok(initial) =>
      var machine := new StateMachine(initial);
      return Ok(machine);
  }
}
