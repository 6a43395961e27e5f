/** The messages of the tunnel's two kinds: system messages and their commands. */
module Messages {
  import opened Basics

  datatype Command = AUTH | REGISTER | REQUEST | RESPONSE | HEALTH | CLOSE | CANCEL_REGISTER

  datatype Protocol = TCP | HTTP | HTTPS

  datatype Register = Register(name: string, newServerPort: bool, newPort: int, protocol: Protocol)

  datatype SysMessage = SysMessage(id: nat, command: Command, token: string, state: int, register: Option<Register>)
}
