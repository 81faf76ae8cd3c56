/** The collision pair filter the physics scene is created with: every pair
    is kept; a pair involving a trigger gets the trigger notifications, any
    other pair the contact defaults plus a report for every step the two
    stay in touch. The filter data and the constant block the engine passes
    in are not read and are not modelled. */
module FilterShader {

  /** The `PxPairFlag` values the filter uses. */
  datatype PairFlag =
    | SolveContact
    | ModifyContacts
    | NotifyTouchFound
    | NotifyTouchPersists
    | NotifyTouchLost
    | NotifyContactPoints
    | DetectDiscreteContact
    | DetectCcdContact

  /** `PxFilterFlag` values; `eDEFAULT` is the empty set. */
  datatype FilterFlag = Kill | Suppress | Callback

  /** `PxFilterObjectAttributes`: the object type and its trigger and
      kinematic marks. */
  datatype FilterObjectAttributes =
    FilterObjectAttributes(objectType: nat, isTrigger: bool, isKinematic: bool)

  /** `PxPairFlag::eCONTACT_DEFAULT`. */
  const CONTACT_DEFAULT: set<PairFlag> := {SolveContact, DetectDiscreteContact}

  /** `PxPairFlag::eTRIGGER_DEFAULT`. */
  const TRIGGER_DEFAULT: set<PairFlag> := {NotifyTouchFound, NotifyTouchLost, DetectDiscreteContact}

  /** `PxFilterFlag::eDEFAULT`: keep the pair, no special handling. */
  const DEFAULT_FILTER: set<FilterFlag> := {}

  /** The returned filter flags and the value written to `pairFlags`. */
  datatype Decision = Decision(filterFlags: set<FilterFlag>, pairFlags: set<PairFlag>)

  function PxFilterObjectIsTrigger(attributes: FilterObjectAttributes): bool
  {
    attributes.isTrigger
  }

  function DefaultFilterShader(attributes0: FilterObjectAttributes, attributes1: FilterObjectAttributes): (d: Decision)
    ensures d.filterFlags == DEFAULT_FILTER
    ensures attributes0.isTrigger || attributes1.isTrigger ==> d.pairFlags == TRIGGER_DEFAULT
    ensures !attributes0.isTrigger && !attributes1.isTrigger ==>
      d.pairFlags == CONTACT_DEFAULT + {NotifyTouchPersists}
  {
    if PxFilterObjectIsTrigger(attributes0) || PxFilterObjectIsTrigger(attributes1) then
      Decision(DEFAULT_FILTER, TRIGGER_DEFAULT)
    else
      var flags := CONTACT_DEFAULT;
      Decision(DEFAULT_FILTER, flags + {NotifyTouchPersists})
  }

  /** No pair is ever killed or suppressed; the decision does not depend on
      the order of the two objects; trigger pairs are reported but never
      solved as contacts, other pairs are solved and reported while they
      persist. */
  lemma FilterProperties(a0: FilterObjectAttributes, a1: FilterObjectAttributes)
    ensures var d := DefaultFilterShader(a0, a1);
      Kill !in d.filterFlags && Suppress !in d.filterFlags
      && d == DefaultFilterShader(a1, a0)
      && (SolveContact in d.pairFlags <==> !a0.isTrigger && !a1.isTrigger)
      && (NotifyTouchPersists in d.pairFlags <==> !a0.isTrigger && !a1.isTrigger)
      && (NotifyTouchFound in d.pairFlags <==> a0.isTrigger || a1.isTrigger)
  {
  }
}
