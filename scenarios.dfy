/** Four requests worked through against the handler contracts: a success, a
    driver error whose dynamic message is current, the same error after
    another call changed the handle's error, and an unknown session. */
module Scenarios {
  import opened VisaTypes
  import opened CStrings
  import opened ComplexBuffers
  import opened NiRfsgService

  const H: ViSession := 7
  const InvalidParameter: ViStatus := -1074118656

  function Samples(): seq<ViReal32>
  {
    [ViReal32(0x3F80_0000), ViReal32(0x4000_0000), ViReal32(0x4040_0000), ViReal32(0x4080_0000)]
  }

  function Request(): WriteArbWaveformComplexF32Request
  {
    WriteArbWaveformComplexF32Request(Session("sessA"), "wfm0", Samples(), false)
  }

  function Sessions(): SessionRepository
  {
    name => if name == "sessA" then Resolved(H) else Thrown(Failed(5, "session not found"))
  }

  /** Session "sessA" resolves, the driver returns 0: OK with status 0. */
  method ScenarioSuccess()
  {
    var driver := Driver(ErrorQueries(_ => Untouched, (_, _) => ""), _ => 0);
    var st, response, calls := WriteArbWaveformComplexF32(
      ServerContext(false), Request(), WriteArbWaveformResponse(3), Sessions(), driver);
    assert st == OK && response == WriteArbWaveformResponse(0);
    var args := calls[1].args;
    assert args.numberOfSamples == 2;
    assert args.waveformData == [Complex(Samples()[0], Samples()[1]), Complex(Samples()[2], Samples()[3])];
  }

  /** The driver fails and GetError still holds that failure: its message is reported. */
  method ScenarioCurrentDynamicMessage()
  {
    var errors := ErrorQueries(_ => Reported(InvalidParameter, "Invalid parameter."), (_, _) => "static text");
    var driver := Driver(errors, _ => InvalidParameter);
    var st, response, calls := WriteArbWaveformComplexF32(
      ServerContext(false), Request(), WriteArbWaveformResponse(3), Sessions(), driver);
    assert st.ApiError? && st.status == InvalidParameter && response == WriteArbWaveformResponse(3);
    assert NUL !in "Invalid parameter.";
    WholeMessageRead(Nuls(MaxGrpcErrorDescriptionSize), "Invalid parameter.");
    assert Text(st.description) == "Invalid parameter.";
    assert calls[2..] == [Query(GetError(H))];
  }

  /** Another call replaced the handle's error: the static message for the
      driver's status is reported, with the driver's status. */
  method ScenarioRaceFallsBack()
  {
    var errors := ErrorQueries(_ => Reported(-1, "Some other error."), (_, _) => "Static message");
    var driver := Driver(errors, _ => InvalidParameter);
    var st, response, calls := WriteArbWaveformComplexF32(
      ServerContext(false), Request(), WriteArbWaveformResponse(3), Sessions(), driver);
    assert ProbedCode(errors.getError(H)) != InvalidParameter;
    assert st == ApiError(InvalidParameter, WriteCString(Nuls(MaxGrpcErrorDescriptionSize), "Static message"));
    assert response == WriteArbWaveformResponse(3);
    assert calls[2..] == [Query(GetError(H)), Query(ErrorMessage(H, InvalidParameter))];
    assert Text(st.description) == "Static message" by {
      assert NUL !in "Static message";
      WholeMessageRead(Nuls(MaxGrpcErrorDescriptionSize), "Static message");
    }
  }

  /** An unknown session: the lookup's status, and the driver is never called. */
  method ScenarioUnknownSession()
  {
    var driver := Driver(ErrorQueries(_ => Untouched, (_, _) => ""), _ => 0);
    var request := WriteArbWaveformComplexF32Request(Session("sessX"), "wfm0", Samples(), true);
    var st, response, calls := WriteArbWaveformComplexF32(
      ServerContext(false), request, WriteArbWaveformResponse(3), Sessions(), driver);
    assert st == Failed(5, "session not found");
    assert calls == [AccessSession("sessX")];
  }

  /** A cancelled call touches nothing, whatever the request. */
  method ScenarioCancelled(request: WriteArbWaveformComplexI16Request, driver: Driver<ViInt16>)
    requires |request.wfmData| / 2 <= Int32Max
  {
    var st, response, calls := WriteArbWaveformComplexI16(
      ServerContext(true), request, WriteArbWaveformResponse(3), Sessions(), driver);
    assert st == CANCELLED && calls == [] && response == WriteArbWaveformResponse(3);
  }
}
