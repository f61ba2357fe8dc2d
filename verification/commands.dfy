/** The four commands the client sends to the gate controller, shared by
    the direct client and the HTTP fallback: each is a one-character code
    published on the control topic. */
module Commands {

  datatype Command = GateCommand | GarageCommand | AutoGateCommand | StopCommand

  const ControlTopic: string := "IoT/Brana/Ovladani"
  const GateStatusTopic: string := "IoT/Brana/Status"
  const GarageStatusTopic: string := "IoT/Brana/Status2"
  const GateLogTopic: string := "Log/Brana/ID"

  /** The payload the controller understands for each command. */
  function Code(c: Command): (s: string)
    ensures |s| == 1
  {
    match c
    case GateCommand => "1"
    case GarageCommand => "3"
    case AutoGateCommand => "2"
    case StopCommand => "6"
  }

  /** The action name recorded with each command. */
  function Action(c: Command): string {
    match c
    case GateCommand => "Brána"
    case GarageCommand => "Garáž"
    case AutoGateCommand => "Auto brána"
    case StopCommand => "STOP režim"
  }

  /** The controller can tell every command apart by its code. */
  lemma CodeInjective(c: Command, d: Command)
    requires Code(c) == Code(d)
    ensures c == d
  {
    assert Code(c)[0] == Code(d)[0];
  }

  /** The body of a proxy publish request, without its timestamp. */
  datatype PublishRequest = PublishRequest(topic: string, message: string, user: string, action: string)

  /** The HTTP fallback's publish request for `c` issued by `email`: the
      control topic, the command's code, the user as `ID:<email>` and the
      action name. */
  function ProxyPublish(c: Command, email: string): (r: PublishRequest)
    ensures r.topic == ControlTopic && r.message == Code(c) && r.action == Action(c)
    ensures |r.user| == |email| + 3 && r.user[..3] == "ID:" && r.user[3..] == email
  {
    PublishRequest(ControlTopic, Code(c), "ID:" + email, Action(c))
  }
}
