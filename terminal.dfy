/** Lines written to the process's two output streams. */
module Terminal {

  /** `console.log` writes to standard output; `console.warn` and `console.error` to standard error. */
  datatype Line = Stdout(text: string) | Stderr(text: string)
}
