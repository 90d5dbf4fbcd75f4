/** One line of the terminal-emulator dialog. */
module Terminal {

  /** Severity of a line; it only picks the colour the line is drawn in. */
  datatype LogType = SUCCESS | ERROR | WARNING | INFO | COMMAND | PROGRESS

  datatype TerminalLog = TerminalLog(text: string, kind: LogType, timestamp: string, isCommand: bool := false)
}
