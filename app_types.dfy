/** The application's data types (include/app.h). */
module AppTypes {

  /** The state machine states, in declaration order; the C enumerators
      APPS_IDLE, APPS_INIT and APPS_NULL have the values 0, 1 and 2. */
  datatype AppState = Idle | Init | Null

  /** The integer value the C enum stores for a state. */
  function Ordinal(s: AppState): (code: nat)
    ensures code == 0 <==> s == Idle
    ensures code == 1 <==> s == Init
    ensures code == 2 <==> s == Null
  {
    match s
    case Idle => 0
    case Init => 1
    case Null => 2
  }

  /** Number of values of a `uint16_t`. */
  const UINT16_MODULUS: int := 0x1_0000

  /** The values a `uint16_t` can hold (the type of `init_count`). */
  type Uint16 = x: int | 0 <= x < UINT16_MODULUS
}
