/** Success and absence values shared by every component. */
module Results {

  datatype Option<+T> = None | Some(value: T)

  /** The engines signal refusal by raising an error that carries a code; a
      `Refused` result carries that code. */
  datatype Result<+T> = Ok(value: T) | Refused(code: string)
}
