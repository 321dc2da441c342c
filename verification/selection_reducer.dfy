/**
  The selection reducer: selecting or deselecting one service yields the next
  selection. Selecting an add-on is refused while the service it depends on is
  missing, and deselecting the last of Photography and VideoRecording also
  drops both add-ons.
 */
module SelectionReducer {
  import opened PriceTable
  import PriceCalculator

  datatype Action = Select(service: Service) | Deselect(service: Service)

  /** The invariant the reducer keeps: an add-on is only present together with
      Photography or VideoRecording. */
  predicate AddOnsSupported(sel: set<Service>) {
    (BlurayPackage in sel || TwoDayEvent in sel) ==> (Photography in sel || VideoRecording in sel)
  }

  /** Whether a Select of `s` is refused because its precondition is missing. */
  predicate SelectRefused(sel: set<Service>, s: Service) {
    || (s == BlurayPackage && VideoRecording !in sel)
    || (s == TwoDayEvent && !(Photography in sel || VideoRecording in sel))
  }

  /** Whether deselecting `s` removes the last of Photography and VideoRecording. */
  predicate DeselectCascades(sel: set<Service>, s: Service) {
    (s == Photography || s == VideoRecording) && Photography !in sel - {s} && VideoRecording !in sel - {s}
  }

  /** The selection after one action. */
  function UpdateSelectedServices(previous: set<Service>, action: Action): (next: set<Service>)
    ensures action.Select? ==> previous <= next <= previous + {action.service}
    ensures action.Deselect? ==> next <= previous && action.service !in next
    ensures AddOnsSupported(previous) ==> AddOnsSupported(next)
  {
    match action
    case Select(s) =>
      if s == BlurayPackage && VideoRecording !in previous then previous
      else if s == TwoDayEvent && !(Photography in previous || VideoRecording in previous) then previous
      else previous + {s}
    case Deselect(s) =>
      var updated := previous - {s};
      if (s == Photography || s == VideoRecording)
         && !(Photography in updated || VideoRecording in updated)
      then updated - {BlurayPackage, TwoDayEvent}
      else updated
  }

  /** A refused Select returns the selection unchanged; any other Select adds
      exactly the service and leaves every other membership as it was. */
  lemma SelectAddsUnlessRefused(sel: set<Service>, s: Service)
    ensures SelectRefused(sel, s) ==> UpdateSelectedServices(sel, Select(s)) == sel
    ensures !SelectRefused(sel, s) ==> s in UpdateSelectedServices(sel, Select(s))
    ensures forall x :: x != s ==> (x in UpdateSelectedServices(sel, Select(s)) <==> x in sel)
  {
  }

  /** A Select leaves the selection unchanged exactly when it is refused or
      the service is already selected. */
  lemma SelectUnchangedIff(sel: set<Service>, s: Service)
    ensures UpdateSelectedServices(sel, Select(s)) == sel <==> (SelectRefused(sel, s) || s in sel)
  {
  }

  /** Selecting the same service twice is the same as selecting it once. */
  lemma SelectIdempotent(sel: set<Service>, s: Service)
    ensures UpdateSelectedServices(UpdateSelectedServices(sel, Select(s)), Select(s))
         == UpdateSelectedServices(sel, Select(s))
  {
  }

  /** Deselect removes the service; the add-ons go too exactly when it cascades;
      nothing else changes. */
  lemma DeselectRemovesAndCascades(sel: set<Service>, s: Service)
    ensures s !in UpdateSelectedServices(sel, Deselect(s))
    ensures forall x :: x != s && (x == BlurayPackage || x == TwoDayEvent) ==>
      (x in UpdateSelectedServices(sel, Deselect(s)) <==> x in sel && !DeselectCascades(sel, s))
    ensures forall x :: x != s && x != BlurayPackage && x != TwoDayEvent ==>
      (x in UpdateSelectedServices(sel, Deselect(s)) <==> x in sel)
  {
  }

  /** Deselecting the same service twice is the same as deselecting it once. */
  lemma DeselectIdempotent(sel: set<Service>, s: Service)
    ensures UpdateSelectedServices(UpdateSelectedServices(sel, Deselect(s)), Deselect(s))
         == UpdateSelectedServices(sel, Deselect(s))
  {
  }

  /** The selection after a sequence of actions, applied left to right. */
  function Replay(sel: set<Service>, actions: seq<Action>): set<Service>
    decreases |actions|
  {
    if |actions| == 0 then sel
    else Replay(UpdateSelectedServices(sel, actions[0]), actions[1..])
  }

  /** Every selection reachable from one satisfying the invariant satisfies it. */
  lemma {:induction false} ReplayKeepsAddOnsSupported(sel: set<Service>, actions: seq<Action>)
    requires AddOnsSupported(sel)
    ensures AddOnsSupported(Replay(sel, actions))
    decreases |actions|
  {
    if |actions| != 0 {
      ReplayKeepsAddOnsSupported(UpdateSelectedServices(sel, actions[0]), actions[1..]);
    }
  }

  /** The stronger claim "BlurayPackage only with VideoRecording" is not kept:
      deselecting VideoRecording while Photography stays leaves BlurayPackage. */
  lemma BlurayOutlivesVideo()
    ensures UpdateSelectedServices({Photography, VideoRecording, BlurayPackage}, Deselect(VideoRecording))
         == {Photography, BlurayPackage}
    ensures var next := UpdateSelectedServices({Photography, VideoRecording, BlurayPackage}, Deselect(VideoRecording));
            BlurayPackage in next && VideoRecording !in next
  {
  }

  /** The same state is reachable from the empty selection by the reducer alone. */
  lemma BlurayWithoutVideoReachable()
    ensures Replay({}, [Select(Photography), Select(VideoRecording), Select(BlurayPackage), Deselect(VideoRecording)])
         == {Photography, BlurayPackage}
  {
  }

  /** Selecting TwoDayEvent on an empty selection is refused. */
  lemma TwoDayOnEmptyRefused()
    ensures UpdateSelectedServices({}, Select(TwoDayEvent)) == {}
  {
  }

  /** In a selection the reducer keeps, a selected TwoDayEvent is always charged;
      a selected BlurayPackage is charged exactly when VideoRecording is there too. */
  lemma SupportedAddOnsCharged(sel: set<Service>)
    requires AddOnsSupported(sel)
    ensures TwoDayEvent in sel ==> PriceCalculator.Charged(sel, TwoDayEvent)
    ensures BlurayPackage in sel ==> (PriceCalculator.Charged(sel, BlurayPackage) <==> VideoRecording in sel)
  {
  }
}
