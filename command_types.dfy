/** The outgoing command payloads and the optional status-string configuration. */
module CommandTypes {
  import opened Wrappers

  /** An element of the `optionalFields` list; its values are not inspected. */
  type AccessRightsField = string

  /** The optional `ScannerConfig`: each status string may be omitted. */
  datatype ScannerConfig = ScannerConfig(
    sessionStarted: Option<string>,
    sessionFailed: Option<string>,
    sessionSucceeded: Option<string>,
    sessionInProgress: Option<string>)

  /** The `messages` object of the remote-authentication and change-PIN commands. */
  datatype SessionMessages = SessionMessages(
    sessionStarted: string,
    sessionFailed: string,
    sessionSucceeded: string,
    sessionInProgress: string)

  const DefaultSessionStarted: string := "Please place your ID card on the top of the device's back side."
  const DefaultSessionFailed: string := "Scanning process failed."
  const DefaultSessionSucceeded: string := "Scanning process has been finished successfully."
  const DefaultSessionInProgress: string := "Scanning process is in progress."

  /** A command payload; the constructor is its `cmd` discriminant. */
  datatype Command =
    | Init
    | GetInfo
    | RunAuth(tcTokenURL: string, handleInterrupt: bool, messages: SessionMessages)
    | RunChangePin(handleInterrupt: bool, messages: SessionMessages)
    | SetPuk(value: string)
    | SetCan(value: string)
    | SetPin(value: string)
    | Accept
    | GetCertificate
    | Cancel
    | SetAccessRights(chat: seq<AccessRightsField>)
    | SetNewPin(value: string)
}
