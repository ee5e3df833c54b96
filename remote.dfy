/**
 * What the screen gets back from its remote store (a single row of the
 * sensor_data table, id 1). The queries themselves are outside the model:
 * each handler receives the outcome of its query as a value.
 */
module Remote {

  datatype Option<T> = None | Some(value: T)

  /**
   * The outcome of one awaited query: either the await threw (the handler's
   * catch branch), or it resolved to an error (or none) and a row (or none).
   * The handlers test the two parts independently, so both are kept.
   */
  datatype Reply<T> = Threw | Replied(error: Option<string>, data: Option<T>) {
    /** No error was reported and no exception was thrown. */
    predicate Succeeded() {
      Replied? && error.None?
    }

    /** The row, when the query resolved with one (`data?.`). */
    function Row(): (row: Option<T>)
      ensures row.Some? ==> Replied? && data == row
    {
      if Replied? then data else None
    }
  }

  /** Columns water_level, light_level and is_moist; None is `undefined`. */
  datatype SensorRow = SensorRow(waterLevel: Option<int>, lightLevel: Option<int>, isMoist: Option<bool>)

  /** Column is_button_pump; None is `undefined` or `null`. */
  datatype PumpRow = PumpRow(isButtonPump: Option<bool>)

  /** The outcome of the update that requests the pump. */
  datatype WriteReply = WriteThrew | WriteDone(error: Option<string>) {
    predicate Succeeded() {
      WriteDone? && error.None?
    }
  }
}
