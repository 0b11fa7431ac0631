/** What the input system, the physics queries and the shared player record hand
    to the controllers. */
module Input {

  /** Phase of an input action callback (Unity's InputActionPhase);
      `context.started` and `context.canceled` test for Started and Canceled. */
  datatype Phase = Disabled | Waiting | Started | Performed | Canceled

  /** The player's movement state. Other stands for an integer value of the
      enumeration outside its three named members, which C# allows. */
  datatype PlayerState = Walk | Crouch | Sprint | Other(code: int)

  /** A physics query's answer: a hit with its payload, or nothing. */
  datatype Option<T> = None | Some(value: T)
}
