/** The six additive components of the tariff and their dict keys. */
module Componentes {

  datatype Component = G | T | D | PR | R | C

  /** The order the aggregators visit the components in. */
  const Order: seq<Component> := [G, T, D, PR, R, C]

  /** The names of the six component services, in the order both
      total-tariff aggregators visit them (the keys of `SERVICES` and of
      `SERVICIOS`). */
  const Services: seq<string> := ["generacion", "transmision", "distribucion",
                                  "perdidas_reconocidas", "restricciones", "comercializacion"]

  /** No service is visited twice. */
  lemma ServicesDistinct()
    ensures forall i, j :: 0 <= i < j < |Services| ==> Services[i] != Services[j]
  {
    // the six names have six different lengths
    assert forall i, j :: 0 <= i < j < |Services| ==> |Services[i]| != |Services[j]|;
  }

  /** The key a component is stored under. */
  function Key(c: Component): string
  {
    match c
    case G => "G"
    case T => "T"
    case D => "D"
    case PR => "PR"
    case R => "R"
    case C => "C"
  }

  const Keys: set<string> := {"G", "T", "D", "PR", "R", "C"}

  /** The component stored under key `k` (one of `Keys`). */
  function ComponentOf(k: string): Component
  {
    if k == "G" then G
    else if k == "T" then T
    else if k == "D" then D
    else if k == "PR" then PR
    else if k == "R" then R
    else C
  }

  /** Keys and components are in one-to-one correspondence, and `Order`
      lists every component. */
  lemma KeysAreComponents()
    ensures forall c :: ComponentOf(Key(c)) == c && Key(c) in Keys
    ensures forall k :: k in Keys ==> Key(ComponentOf(k)) == k
    ensures forall c :: c in Order
  {
    forall c ensures ComponentOf(Key(c)) == c && Key(c) in Keys && c in Order {
      match c
      case G => assert Order[0] == G;
      case T => assert Order[1] == T;
      case D => assert Order[2] == D;
      case PR => assert Order[3] == PR;
      case R => assert Order[4] == R;
      case C => assert Order[5] == C;
    }
  }
}
