/** The `Job` record that travels from the HTTP handler to the workers. */
module Jobs {

  /** Go's `int` and `time.Duration` on a 64-bit platform. */
  newtype Int64 = x: int | -0x8000_0000_0000_0000 <= x < 0x8000_0000_0000_0000

  /** One unit of work: a name, a pacing delay in nanoseconds, and the Fibonacci argument. */
  datatype Job = Job(name: string, delay: Int64, number: Int64)
}
