/**
 Value wrappers shared by the scan model: an optional request field, and the
 abstract outcome of one network probe (the request either failed, in which
 case the route's `catch` block runs, or it returned some data).
 */
module Outcomes {

  /** A JSON field that may be absent from the request body. */
  datatype Option<+T> = None | Some(value: T)

  /** What one probe observed: `Failed` stands for every thrown error (network
      failure, timeout, rejected status, a property access on a missing value);
      `Ok` carries the data the route goes on to inspect. */
  datatype Probe<+T> = Failed | Ok(data: T)
}
