/**
  The shared vocabulary of the game shell: the two screens, the payment
  methods offered for a withdrawal, and the player's session data.
  (types.ts)
 */
module Types {

  /** The screen the root container shows; exactly one at a time. */
  datatype Screen = Game | Withdrawal

  /** The payment provider chosen on the withdrawal form; `None` until chosen. */
  datatype PaymentMethod = None | Dana | Ovo

  /** The player's data for the session. Numbers are whole currency units. */
  datatype PlayerData = PlayerData(level: int, balance: int)

  /** A value that may be `null`, as the withdrawal form's selected amount. */
  datatype Nullable<T> = Null | Some(value: T)
}
