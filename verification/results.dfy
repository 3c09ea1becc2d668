/** Failure-carrying results. A member that returns `Err` where the source calls
    `unwrap()` or `panic!` stands for the program aborting at that point. */
module Results {
  datatype Result<+T> = Ok(value: T) | Err(error: string)

  datatype Option<+T> = None | Some(value: T)
}
