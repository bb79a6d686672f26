/** Selection of the transport client from the configured connection type. */
module Transport {
  import opened Errors
  import opened Text
  import opened Config

  /** The two client variants and the parameters each is built with. */
  datatype Client =
    | TcpClient(host: string, port: int, timeout: real)
    | RtuClient(portName: string, baudrate: int, parity: string, stopbits: int, bytesize: int, timeout: real)

  function CreateClient(s: Settings): Result<Client> {
    if Lower(s.connectionType) == "tcp" then
      Success(TcpClient(s.host, s.port, s.timeout))
    else if Lower(s.connectionType) == "rtu" then
      Success(RtuClient(s.portName, s.baudrate, s.parity, s.stopbits, s.bytesize, s.timeout))
    else
      Failure(UnsupportedConnectionType(s.connectionType))
  }

  /** "tcp" in any letter case gives the network client with the configured host, port and timeout. */
  lemma CreateClientTcp(s: Settings)
    ensures CreateClient(s).Success? && CreateClient(s).value.TcpClient?
        <==> SpelledInAnyCase(s.connectionType, "tcp")
    ensures SpelledInAnyCase(s.connectionType, "tcp")
        ==> CreateClient(s) == Success(TcpClient(s.host, s.port, s.timeout))
  {
    LowerIsAnyCase(s.connectionType, "tcp");
    LowerIsAnyCase(s.connectionType, "rtu");
  }

  /** "rtu" in any letter case gives the serial client with the configured line parameters. */
  lemma CreateClientRtu(s: Settings)
    ensures CreateClient(s).Success? && CreateClient(s).value.RtuClient?
        <==> SpelledInAnyCase(s.connectionType, "rtu")
    ensures SpelledInAnyCase(s.connectionType, "rtu")
        ==> CreateClient(s) == Success(RtuClient(s.portName, s.baudrate, s.parity, s.stopbits, s.bytesize, s.timeout))
  {
    LowerIsAnyCase(s.connectionType, "tcp");
    LowerIsAnyCase(s.connectionType, "rtu");
  }

  /** Every other connection type raises a ValueError that names it. */
  lemma CreateClientRejects(s: Settings)
    ensures CreateClient(s).Failure?
        <==> !SpelledInAnyCase(s.connectionType, "tcp") && !SpelledInAnyCase(s.connectionType, "rtu")
    ensures CreateClient(s).Failure?
        ==> CreateClient(s).error == UnsupportedConnectionType(s.connectionType)
            && CreateClient(s).error.IsValueError()
  {
    LowerIsAnyCase(s.connectionType, "tcp");
    LowerIsAnyCase(s.connectionType, "rtu");
  }

  /** The default connection type selects TCP; "RTU" and "Tcp" are accepted, "udp" is not. */
  lemma CreateClientExamples(s: Settings)
    ensures CreateClient(s.(connectionType := "tcp")).value.TcpClient?
    ensures CreateClient(s.(connectionType := "Tcp")).value.TcpClient?
    ensures CreateClient(s.(connectionType := "RTU")).value.RtuClient?
    ensures CreateClient(s.(connectionType := "udp")) == Failure(UnsupportedConnectionType("udp"))
  {
    assert Lower("Tcp") == "tcp";
    assert Lower("RTU") == "rtu";
    assert Lower("udp") == "udp";
  }
}
