/** How a command to MySQL, Redis or Kafka turns out: answered, never executed, or executed although no answer came. */
module Faults {
  datatype Fault = Fine | Lost | Applied
}
