/** The optional value used throughout the model: an absent body field, a missing
    user, a nullable error message. */
module Optional {

  datatype Option<+T> = None | Some(value: T)
}
