/** An optional value, used for the audio element's source locator, which the
    component clears on teardown. */
module Wrappers {

  datatype Option<+T> = None | Some(value: T)

}
