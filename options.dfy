/** The optional values the models use for nullable columns (a foreign key or a
    field declared with null=True). */
module Options {

  datatype Option<+T> = None | Some(value: T)
}
