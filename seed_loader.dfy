/**
 * The seeding pipeline of the developer area (`uploadAll`, `uploadBookings`):
 * a fixed chain of store steps that stops at the first failure, reports the
 * outcome in a message, and holds a busy flag while it runs.
 *
 * The store is an oracle `ok` that says whether it accepts each step.
 */
module SeedLoader {
  import opened Wrappers

  datatype Step = DeleteBookings | DeleteGuests | DeleteCabins | CreateGuests | CreateCabins | CreateBookings

  /** The words naming a step in its failure message. */
  function StepName(s: Step): string {
    match s
    case DeleteBookings => "delete bookings"
    case DeleteGuests => "delete guests"
    case DeleteCabins => "delete cabins"
    case CreateGuests => "create guests"
    case CreateCabins => "create cabins"
    case CreateBookings => "create bookings"
  }

  /** The step whose name is `name`, if any. */
  function StepOfName(name: string): (r: Option<Step>)
    ensures r.Some? ==> StepName(r.value) == name
  {
    if name == "delete bookings" then Some(DeleteBookings)
    else if name == "delete guests" then Some(DeleteGuests)
    else if name == "delete cabins" then Some(DeleteCabins)
    else if name == "create guests" then Some(CreateGuests)
    else if name == "create cabins" then Some(CreateCabins)
    else if name == "create bookings" then Some(CreateBookings)
    else None
  }

  const ErrorPrefix: string := "Error: Failed to "

  /** The message shown when `s` is the step that failed. */
  function FailureMessage(s: Step): string {
    ErrorPrefix + StepName(s)
  }

  const StartAllMessage: string := "Starting upload..."
  const AllDoneMessage: string := "All data uploaded successfully!"
  const StartBookingsMessage: string := "Starting bookings upload..."
  const BookingsDoneMessage: string := "Bookings uploaded successfully!"

  /** The step a shown message reports as failed, if it reports one. */
  function FailedStepOf(message: string): Option<Step> {
    if |ErrorPrefix| <= |message| && message[..|ErrorPrefix|] == ErrorPrefix
    then StepOfName(message[|ErrorPrefix|..])
    else None
  }

  /** A failure message names its step unambiguously, and neither success message reads as a failure. */
  lemma FailureMessageNamesStep(s: Step)
    ensures FailedStepOf(FailureMessage(s)) == Some(s)
    ensures FailedStepOf(AllDoneMessage) == None && FailedStepOf(BookingsDoneMessage) == None
  {
    var m := FailureMessage(s);
    assert m[..|ErrorPrefix|] == ErrorPrefix;
    assert m[|ErrorPrefix|..] == StepName(s);
    match s
    case DeleteBookings =>
    case DeleteGuests =>
    case DeleteCabins =>
    case CreateGuests =>
    case CreateCabins =>
    case CreateBookings =>
    assert AllDoneMessage[0] != ErrorPrefix[0];
    assert BookingsDoneMessage[0] != ErrorPrefix[0];
  }

  /** The steps of a full reset, dependents deleted first and created last. */
  const FullReset: seq<Step> := [DeleteBookings, DeleteGuests, DeleteCabins, CreateGuests, CreateCabins, CreateBookings]

  /** The steps of a bookings-only refresh. */
  const BookingsRefresh: seq<Step> := [DeleteBookings, CreateBookings]

  /** The steps a run of `plan` issues to the store: all of them up to and including the first one refused. */
  function Attempted(plan: seq<Step>, ok: Step -> bool): seq<Step> {
    if plan == [] then []
    else if !ok(plan[0]) then [plan[0]]
    else [plan[0]] + Attempted(plan[1..], ok)
  }

  /** How a run of `plan` ends: Pass, or Fail with the first step refused. */
  function FirstFailure(plan: seq<Step>, ok: Step -> bool): Outcome<Step> {
    if plan == [] then Pass
    else if !ok(plan[0]) then Fail(plan[0])
    else FirstFailure(plan[1..], ok)
  }

  /** Position in `plan` of the first step the store refuses, or |plan| when it accepts them all. */
  function IndexOfFailure(plan: seq<Step>, ok: Step -> bool): (k: nat)
    ensures k <= |plan|
    ensures k < |plan| ==> !ok(plan[k])
    ensures forall i :: 0 <= i < k ==> ok(plan[i])
  {
    if plan == [] then 0
    else if !ok(plan[0]) then 0
    else 1 + IndexOfFailure(plan[1..], ok)
  }

  /**
   * A run issues its plan up to and including the first step refused, and no
   * step after it; it fails with that step, and passes only when the store
   * accepts every step, having then issued them all.
   */
  lemma {:induction false} RunStopsAtFirstFailure(plan: seq<Step>, ok: Step -> bool)
    ensures var k := IndexOfFailure(plan, ok);
      && Attempted(plan, ok) == (if k < |plan| then plan[..k + 1] else plan)
      && FirstFailure(plan, ok) == (if k < |plan| then Fail(plan[k]) else Pass)
  {
    if plan != [] && ok(plan[0]) {
      RunStopsAtFirstFailure(plan[1..], ok);
      var k := IndexOfFailure(plan[1..], ok);
      if k < |plan[1..]| {
        assert plan[..k + 2] == [plan[0]] + plan[1..][..k + 1];
      } else {
        assert plan == [plan[0]] + plan[1..];
      }
    }
  }

  /** No two positions of `plan` hold the same step. */
  predicate Distinct(plan: seq<Step>) {
    forall i, j :: 0 <= i < j < |plan| ==> plan[i] != plan[j]
  }

  /** In a plan that names each step once, a step is issued only if every step before it in the plan succeeded. */
  lemma IssuedOnlyAfterEarlierSuccesses(plan: seq<Step>, ok: Step -> bool, j: int)
    requires Distinct(plan)
    requires 0 <= j < |plan| && plan[j] in Attempted(plan, ok)
    ensures forall i :: 0 <= i < j ==> ok(plan[i])
  {
    RunStopsAtFirstFailure(plan, ok);
  }

  /**
   * A full reset deletes guests and cabins only after the bookings that refer
   * to them are gone, and inserts bookings only after the guests and cabins
   * they refer to were created.
   */
  lemma FullResetDependencies(ok: Step -> bool)
    ensures DeleteGuests in Attempted(FullReset, ok) ==> ok(DeleteBookings)
    ensures DeleteCabins in Attempted(FullReset, ok) ==> ok(DeleteBookings)
    ensures CreateGuests in Attempted(FullReset, ok) ==> ok(DeleteBookings) && ok(DeleteGuests) && ok(DeleteCabins)
    ensures CreateBookings in Attempted(FullReset, ok) ==> ok(CreateGuests) && ok(CreateCabins)
  {
    assert Distinct(FullReset);
    if DeleteGuests in Attempted(FullReset, ok) { IssuedOnlyAfterEarlierSuccesses(FullReset, ok, 1); }
    if DeleteCabins in Attempted(FullReset, ok) { IssuedOnlyAfterEarlierSuccesses(FullReset, ok, 2); }
    if CreateGuests in Attempted(FullReset, ok) { IssuedOnlyAfterEarlierSuccesses(FullReset, ok, 3); }
    if CreateBookings in Attempted(FullReset, ok) {
      IssuedOnlyAfterEarlierSuccesses(FullReset, ok, 5);
      assert ok(FullReset[3]) && ok(FullReset[4]);
    }
  }

  /** The message a run ends with: the success text, or the failure message of the step that failed. */
  function Report(outcome: Outcome<Step>, success: string): string {
    match outcome
    case Pass => success
    case Fail(s) => FailureMessage(s)
  }

  /** The final message says success exactly when the run passed, and otherwise names the failed step. */
  lemma ReportIsFaithful(outcome: Outcome<Step>, success: string)
    requires success == AllDoneMessage || success == BookingsDoneMessage
    ensures Report(outcome, success) == success <==> outcome.Pass?
    ensures outcome.Fail? ==> FailedStepOf(Report(outcome, success)) == Some(outcome.error)
  {
    FailureMessageNamesStep(if outcome.Fail? then outcome.error else DeleteBookings);
  }

  /**
   * The developer-area seeder. `stepsRun` is the log of store steps issued so
   * far; it is part of the model, not of the component's own state.
   */
  class Uploader {
    var isLoading: bool
    var message: string
    ghost var stepsRun: seq<Step>

    constructor()
      ensures !isLoading && message == "" && stepsRun == []
    {
      isLoading := false;
      message := "";
      stepsRun := [];
    }

    /** Issues one step to the store; steps are only issued while the busy flag is set. */
    method Run(step: Step, ok: Step -> bool) returns (r: Outcome<Step>)
      requires isLoading
      modifies this`stepsRun
      ensures stepsRun == old(stepsRun) + [step]
      ensures r == if ok(step) then Pass else Fail(step)
    {
      stepsRun := stepsRun + [step];
      r := if ok(step) then Pass else Fail(step);
    }

    /** The body of `uploadAll`'s try block: the six steps in order, stopping at the first refused. */
    method RunFullReset(ok: Step -> bool) returns (r: Outcome<Step>)
      requires isLoading
      modifies this`stepsRun
      ensures stepsRun == old(stepsRun) + Attempted(FullReset, ok)
      ensures r == FirstFailure(FullReset, ok)
    {
      r := Run(DeleteBookings, ok);
      if r.Fail? { return; }
      r := Run(DeleteGuests, ok);
      if r.Fail? { return; }
      r := Run(DeleteCabins, ok);
      if r.Fail? { return; }
      r := Run(CreateGuests, ok);
      if r.Fail? { return; }
      r := Run(CreateCabins, ok);
      if r.Fail? { return; }
      r := Run(CreateBookings, ok);
    }

    /** The body of `uploadBookings`'s try block. */
    method RunBookingsRefresh(ok: Step -> bool) returns (r: Outcome<Step>)
      requires isLoading
      modifies this`stepsRun
      ensures stepsRun == old(stepsRun) + Attempted(BookingsRefresh, ok)
      ensures r == FirstFailure(BookingsRefresh, ok)
    {
      r := Run(DeleteBookings, ok);
      if r.Fail? { return; }
      r := Run(CreateBookings, ok);
    }

    /** Deletes and recreates all sample data; the busy flag is cleared whatever the outcome. */
    method UploadAll(ok: Step -> bool)
      modifies this
      ensures !isLoading
      ensures stepsRun == old(stepsRun) + Attempted(FullReset, ok)
      ensures message == Report(FirstFailure(FullReset, ok), AllDoneMessage)
    {
      isLoading := true;
      message := StartAllMessage;
      var r := RunFullReset(ok);
      message := Report(r, AllDoneMessage);
      isLoading := false;
    }

    /** Deletes and recreates the bookings only; the busy flag is cleared whatever the outcome. */
    method UploadBookings(ok: Step -> bool)
      modifies this
      ensures !isLoading
      ensures stepsRun == old(stepsRun) + Attempted(BookingsRefresh, ok)
      ensures message == Report(FirstFailure(BookingsRefresh, ok), BookingsDoneMessage)
    {
      isLoading := true;
      message := StartBookingsMessage;
      var r := RunBookingsRefresh(ok);
      message := Report(r, BookingsDoneMessage);
      isLoading := false;
    }
  }
}
