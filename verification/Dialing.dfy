/** What ringing a number can come to (apps/voice-agent/src/transfer.ts). */
module Dialing {
  /** A cold transfer is only known to have been referred on. */
  datatype DialResult = Answered | Referred | NoAnswer
}
