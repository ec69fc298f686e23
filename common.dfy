/** Small value types shared by the components of the booking front-end. */
module Common {

  /** An optional value: a React state that may be `null`, or a prop that may be absent. */
  datatype Option<+T> = None | Some(value: T)

  /** The three kinds of business the application serves ('barbearia' | 'lavagem' | 'estetica'). */
  datatype ServiceType = Barbearia | Lavagem | Estetica

  /** A file chosen in a file input; the model only carries its name, as an opaque handle. */
  datatype File = File(name: string)
}
