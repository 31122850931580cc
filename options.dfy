/** The optional value used throughout the model: `None` stands for a pandas
    NaN (a missing or undefined float), `Some(x)` for a defined value x. */
module Options {

  datatype Option<+T> = None | Some(value: T)
}
