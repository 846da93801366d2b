/** Optional values, the exceptions the scripts can raise on their own
    sequential paths, and results that carry either a value or such a fault. */
module Outcomes {

  datatype Option<+T> = None | Some(value: T)

  /** The Python exceptions raised by the modelled code paths. */
  datatype Fault =
      /** `motor_mapping[k]` with `k` not a configured motor number (KeyError). */
    | MissingMotor(motor: int)
      /** `recipes[name]` with `name` not in the recipe book (KeyError). */
    | MissingRecipe(name: string)
      /** `split()[-1]` on a string holding no word (IndexError). */
    | NoWord
      /** `int(text)` on text that is not a decimal integer (ValueError). */
    | NotAnInteger(text: string)
      /** The `finally` block of the serial variant's `start_pump` reading an
          unbound `end_time` after `time.sleep` refused a negative delay or
          one too long to count in nanoseconds (UnboundLocalError). */
    | UnboundEndTime
      /** `volume / flow_rate` on an integer volume too large to convert to
          a float (OverflowError). */
    | TooLargeForFloat

  datatype Result<+T> = Ok(value: T) | Err(fault: Fault)
}
