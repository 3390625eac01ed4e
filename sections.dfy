/**
 * The seven sections of a case summary, in the order every dictionary of the
 * pipeline lists them, with the keys those dictionaries use.
 */
module Sections {

  datatype Section = Symptoms | Environment | ErrorCodes | CustomerAsk | OurActions | Outcome | NextStep

  /** The sections in their fixed order. */
  const AllSections: seq<Section> := [Symptoms, Environment, ErrorCodes, CustomerAsk, OurActions, Outcome, NextStep]

  /** The dictionary key of a section. */
  function Key(s: Section): string
  {
    match s
    case Symptoms => "symptoms"
    case Environment => "environment"
    case ErrorCodes => "error_codes"
    case CustomerAsk => "customer_ask"
    case OurActions => "our_actions"
    case Outcome => "outcome"
    case NextStep => "next_step"
  }

  /** Where a section sits in the fixed order. */
  function Position(s: Section): (i: nat)
    ensures i < |AllSections| && AllSections[i] == s
  {
    match s
    case Symptoms => 0
    case Environment => 1
    case ErrorCodes => 2
    case CustomerAsk => 3
    case OurActions => 4
    case Outcome => 5
    case NextStep => 6
  }

  /** Every section is listed, exactly once. */
  lemma AllSectionsListed()
    ensures forall s: Section :: s in AllSections
    ensures |AllSections| == 7
    ensures forall i, j :: 0 <= i < j < |AllSections| ==> AllSections[i] != AllSections[j]
  {
    forall s: Section
      ensures s in AllSections
    {
      match s
      case Symptoms => assert AllSections[0] == s;
      case Environment => assert AllSections[1] == s;
      case ErrorCodes => assert AllSections[2] == s;
      case CustomerAsk => assert AllSections[3] == s;
      case OurActions => assert AllSections[4] == s;
      case Outcome => assert AllSections[5] == s;
      case NextStep => assert AllSections[6] == s;
    }
  }
}
