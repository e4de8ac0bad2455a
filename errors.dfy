/** The exceptions the mail library throws, each with the reason its message gives. */
module Errors {
  import opened Wrappers

  datatype Error =
    | IllegalArgument(reason: Reason)   // java.lang.IllegalArgumentException
    | IllegalState(reason: Reason)      // java.lang.IllegalStateException
    | UnsupportedOperation              // "Instance is read-only"
    | AddressException(reason: Reason)  // javax.mail.internet.AddressException
    | ClassCast                         // (Integer) cast of a property that is not an Integer

  datatype Reason =
    | NullWrapped                       // "Wrapped instance cannot be null"
    | EmptyRecipients                   // "Empty recipients"
    | DuplicateRecipient(shown: string) // "Dupplicate recipient: " + recipient.toString()
    | AlreadySet(field: string)         // "<field> is already set"
    | NullOrEmpty(field: string)        // "Null/Empty <field>"
    | NullOrEmptyAddress(index: Option<nat>) // "Null/Empty address" for the sender, "... at index i" for recipient i
    | Unparseable(text: string)         // the mailbox parser rejected `text`
    | NullProperties                    // "Null properties"
    | InvalidPort(port: int)            // "Invalid port: %d"
    | NullSecurityType                  // "Null security type"
    | NoEnumConstant(name: string)      // SecurityType.valueOf(name) found no constant
}
