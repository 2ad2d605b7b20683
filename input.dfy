/** The key events the core distinguishes. */
module Input {

  /**
   * A key press. The variants are those the application reacts to;
   * every other key arrives as `Other`.
   */
  datatype Key =
    | Up
    | Down
    | Left
    | Right
    | Esc
    | Char(c: char)
    | Ctrl(c: char)
    | Other(code: nat)
}
