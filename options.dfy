/** Python's `None` / value pair, used for nullable columns and optional inputs. */
module Options {

  datatype Option<+T> = None | Some(value: T)
}
