/** PlayerInteraction: the target under the probe is refreshed every physics
    step, and an interact press reaches that target. */
module Interaction {
  import opened Input

  /** An object that has an Interactable component. */
  datatype Target = Target(id: nat)

  /** The probe's answer: nothing hit, or a hit collider with or without an
      Interactable component. */
  datatype Probe = Miss | Hit(component: Option<Target>)

  /** The current target after a probe; the previous one plays no part. */
  function NextTarget(probe: Probe): (r: Option<Target>)
    ensures probe.Hit? && probe.component.Some? <==> r.Some?
    ensures r.Some? ==> r == probe.component
  {
    match probe
    case Hit(Some(t)) => Some(t)
    case _ => None
  }

  /** The Interact calls one interact callback makes: exactly one on a started
      phase with a target, none otherwise. */
  function InteractCalls(phase: Phase, current: Option<Target>): (r: seq<Target>)
    ensures |r| <= 1
    ensures |r| == 1 <==> phase.Started? && current.Some?
    ensures |r| == 1 ==> r[0] == current.value
  {
    if phase.Started? && current.Some? then [current.value] else []
  }

  class PlayerInteraction {
    var currentInteractable: Option<Target>
    /** The Interact calls made so far, in order. */
    var interactCalls: seq<Target>

    constructor ()
      ensures currentInteractable.None? && interactCalls == []
    {
      currentInteractable := None;
      interactCalls := [];
    }

    /** FixedUpdate's CheckForInteractable. */
    method CheckForInteractable(probe: Probe)
      modifies this`currentInteractable
      ensures currentInteractable == NextTarget(probe)
    {
      if probe.Hit? && probe.component.Some? {
        currentInteractable := probe.component;
      } else if currentInteractable.Some? {
        currentInteractable := None;
      }
    }

    /** The interact callback. */
    method OnInteract(phase: Phase)
      modifies this`interactCalls
      ensures interactCalls == old(interactCalls) + InteractCalls(phase, currentInteractable)
    {
      if phase.Started? {
        if currentInteractable.Some? {
          Interact();
        }
      }
    }

    method Interact()
      requires currentInteractable.Some?
      modifies this`interactCalls
      ensures interactCalls == old(interactCalls) + [currentInteractable.value]
    {
      interactCalls := interactCalls + [currentInteractable.value];
    }
  }
}
