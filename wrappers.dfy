/** Optional values. `None` stands for a result that Java's double arithmetic
    would leave non-finite (NaN or an infinity). */
module Wrappers {

  datatype Option<+T> = None | Some(value: T)
}
