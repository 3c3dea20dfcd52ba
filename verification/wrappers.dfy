/** Optional values: `None` stands for a Java `null` result or for an
    exception the Java code throws instead of returning. */
module Wrappers {

  datatype Option<+T> = None | Some(value: T)

}
