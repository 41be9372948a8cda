/** What becomes of a command sent to a device over a link that can drop. */
module Commands {
  /** How far a command got on the device, and whether its answer came back. */
  datatype Reach = NotRun | RunUnheard | RunHeard
}
