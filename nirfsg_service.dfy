/** The hand-written part of the NI-RFSG gRPC service: the translation of a
    failing driver status into a gRPC status, and the three
    WriteArbWaveformComplex handlers that read an interleaved sample buffer
    as complex pairs and pass it to the driver.

    The driver, the session repository and the server context are inputs:
    each foreign call is a function parameter giving its answer, and every
    handler returns the sequence of calls it made, so that what it did NOT
    touch can be stated. */
module NiRfsgService {
  import opened VisaTypes
  import opened CStrings
  import opened ComplexBuffers

  /** nidevice_grpc::kMaxGrpcErrorDescriptionSize, the capacity of the
      description buffer; the service only relies on it being at least 1024. */
  const MaxGrpcErrorDescriptionSize: nat := 1024

  datatype Option<T> = None | Some(value: T)

  /** The gRPC status a handler returns. */
  datatype GrpcStatus =
    | OK
    | CANCELLED
      /** ApiErrorAndDescriptionToStatus(context, status, description): a
          driver error with the full description buffer. */
    | ApiError(status: ViStatus, description: seq<char>)
      /** Any other status, such as one a NonDriverException carries. */
    | Failed(code: nat, message: string)

  datatype ServerContext = ServerContext(cancelled: bool)

  /** The nidevice_grpc.Session message that names a session. */
  datatype Session = Session(name: string)

  /** What access_session gives for a name: the live handle, or the status
      of the NonDriverException it throws. */
  datatype SessionLookup = Resolved(vi: ViSession) | Thrown(status: GrpcStatus)

  type SessionRepository = string -> SessionLookup

  /** What GetError leaves in its two output parameters: either nothing
      (error_code keeps its initial 0, the buffer stays cleared), or the code
      of the most recent error on the handle and its message. The code need
      not be the one being translated: another call on the same handle may
      have replaced it. */
  datatype ErrorProbe = Untouched | Reported(code: ViStatus, message: string)

  /** The driver's two error queries: GetError's answer for a handle at the
      moment of the call, and ErrorMessage's static text for a code. */
  datatype ErrorQueries = ErrorQueries(
    getError: ViSession -> ErrorProbe,
    errorMessage: (ViSession, ViStatus) -> string)

  /** The arguments of one WriteArbWaveformComplex{F32,F64,I16} driver call;
      moreDataPending is None for the I16 variant, which has no such argument. */
  datatype WriteArgs<T> = WriteArgs(
    vi: ViSession,
    waveformName: string,
    numberOfSamples: ViInt32,
    waveformData: seq<Complex<T>>,
    moreDataPending: Option<bool>)

  /** The driver library as one handler sees it, for sample type T. */
  datatype Driver<!T> = Driver(
    errors: ErrorQueries,
    writeArbWaveformComplex: WriteArgs<T> -> ViStatus)

  datatype ErrorQuery = GetError(vi: ViSession) | ErrorMessage(vi: ViSession, status: ViStatus)

  /** One call a handler makes to the session repository or to the driver. */
  datatype Call<T> =
    | AccessSession(name: string)
    | WriteWaveform(args: WriteArgs<T>)
    | Query(query: ErrorQuery)

  datatype WriteArbWaveformComplexF32Request = WriteArbWaveformComplexF32Request(
    vi: Session, waveformName: string, wfmData: seq<ViReal32>, moreDataPending: bool)
  datatype WriteArbWaveformComplexF64Request = WriteArbWaveformComplexF64Request(
    vi: Session, waveformName: string, wfmData: seq<ViReal64>, moreDataPending: bool)
  datatype WriteArbWaveformComplexI16Request = WriteArbWaveformComplexI16Request(
    vi: Session, waveformName: string, wfmData: seq<ViInt16>)

  /** The three response messages have the same single field. */
  datatype WriteArbWaveformResponse = WriteArbWaveformResponse(status: ViStatus)

  // ---------------------------------------------------------------------
  // Error translation
  // ---------------------------------------------------------------------

  /** The error code GetError leaves in error_code. */
  function ProbedCode(probe: ErrorProbe): ViStatus
  {
    if probe.Reported? then probe.code else 0
  }

  /** The message GetError reports (none when it wrote nothing). */
  function ProbedMessage(probe: ErrorProbe): string
  {
    if probe.Reported? then probe.message else ""
  }

  /** The description buffer after GetError ran on a cleared buffer. */
  function ProbedBuffer(probe: ErrorProbe): seq<char>
  {
    var cleared := Nuls(MaxGrpcErrorDescriptionSize);
    if probe.Reported? then WriteCString(cleared, probe.message) else cleared
  }

  /** The description reported for a failing `status` on handle `vi`: GetError's
      buffer when the code it saw is `status` itself, otherwise a cleared
      buffer holding ErrorMessage's static text for `status`. */
  function Diagnostic(errors: ErrorQueries, vi: ViSession, status: ViStatus): (d: seq<char>)
    ensures |d| == MaxGrpcErrorDescriptionSize
  {
    var probe := errors.getError(vi);
    if ProbedCode(probe) == status then ProbedBuffer(probe)
    else WriteCString(Nuls(MaxGrpcErrorDescriptionSize), errors.errorMessage(vi, status))
  }

  /** The driver queries the translation makes: GetError always, ErrorMessage
      only when GetError saw another code. */
  function DiagnosticQueries(errors: ErrorQueries, vi: ViSession, status: ViStatus): seq<ErrorQuery>
  {
    if ProbedCode(errors.getError(vi)) == status then [GetError(vi)]
    else [GetError(vi), ErrorMessage(vi, status)]
  }

  /** ConvertApiErrorStatusForViSession: never fails, always reports the
      original `status` (not the code GetError saw), with the description
      Diagnostic chooses. */
  method ConvertApiErrorStatusForViSession(errors: ErrorQueries, status: ViStatus, vi: ViSession)
    returns (st: GrpcStatus, queries: seq<ErrorQuery>)
    ensures st == ApiError(status, Diagnostic(errors, vi, status))
    ensures queries == DiagnosticQueries(errors, vi, status)
  {
    var errorCode: ViStatus := 0;
    var description := Nuls(MaxGrpcErrorDescriptionSize);
    var probe := errors.getError(vi);
    queries := [GetError(vi)];
    if probe.Reported? {
      errorCode := probe.code;
      description := WriteCString(description, probe.message);
    }
    if errorCode != status {
      // Another call changed the handle's error: use the static message.
      description := Nuls(MaxGrpcErrorDescriptionSize);
      description := WriteCString(description, errors.errorMessage(vi, status));
      queries := queries + [ErrorMessage(vi, status)];
    }
    st := ApiError(status, description);
  }

  /** The text of the description reported for `status` is the (fitting part
      of the) dynamic message exactly when GetError saw `status` itself, and
      the static message for `status` otherwise. */
  lemma DiagnosticText(errors: ErrorQueries, vi: ViSession, status: ViStatus)
    ensures var probe := errors.getError(vi);
      Text(Diagnostic(errors, vi, status)) ==
        if ProbedCode(probe) == status then Text(Fit(ProbedMessage(probe), MaxGrpcErrorDescriptionSize))
        else Text(Fit(errors.errorMessage(vi, status), MaxGrpcErrorDescriptionSize))
  {
    var probe := errors.getError(vi);
    var cleared := Nuls(MaxGrpcErrorDescriptionSize);
    if ProbedCode(probe) == status && !probe.Reported? {
      assert cleared[0] == NUL;
    } else if ProbedCode(probe) == status {
      TextOfWrite(cleared, probe.message);
    } else {
      TextOfWrite(cleared, errors.errorMessage(vi, status));
    }
  }

  /** A failing status is never described by a message about another code:
      either GetError reported that very code and its message is shown, or
      the static message for the status is shown. */
  lemma FailureDescribedByItsOwnCode(errors: ErrorQueries, vi: ViSession, status: ViStatus)
    requires !StatusOk(status)
    ensures var probe := errors.getError(vi);
      var text := Text(Diagnostic(errors, vi, status));
      (probe.Reported? && probe.code == status && text == Text(Fit(probe.message, MaxGrpcErrorDescriptionSize)))
      || (ProbedCode(probe) != status && text == Text(Fit(errors.errorMessage(vi, status), MaxGrpcErrorDescriptionSize)))
  {
    DiagnosticText(errors, vi, status);
  }

  /** When GetError saw another code, nothing it wrote survives: the buffer
      is cleared before the static lookup, so it holds the static message for
      `status` followed by NULs only. */
  lemma RaceFallbackHoldsOnlyStaticMessage(errors: ErrorQueries, vi: ViSession, status: ViStatus)
    requires ProbedCode(errors.getError(vi)) != status
    ensures var m := Fit(errors.errorMessage(vi, status), MaxGrpcErrorDescriptionSize);
      Diagnostic(errors, vi, status) == m + Nuls(MaxGrpcErrorDescriptionSize - |m|)
  {
    var m := Fit(errors.errorMessage(vi, status), MaxGrpcErrorDescriptionSize);
    var cleared := Nuls(MaxGrpcErrorDescriptionSize);
    assert Diagnostic(errors, vi, status) == m + [NUL] + cleared[|m| + 1..];
    assert [NUL] + cleared[|m| + 1..] == Nuls(MaxGrpcErrorDescriptionSize - |m|);
  }

  /** A GetError that wrote nothing leaves error_code at 0, so every failing
      status falls back to the static message. */
  lemma UntouchedProbeFallsBack(errors: ErrorQueries, vi: ViSession, status: ViStatus)
    requires errors.getError(vi) == Untouched && !StatusOk(status)
    ensures Diagnostic(errors, vi, status) == WriteCString(Nuls(MaxGrpcErrorDescriptionSize), errors.errorMessage(vi, status))
    ensures DiagnosticQueries(errors, vi, status) == [GetError(vi), ErrorMessage(vi, status)]
  {
  }

  // ---------------------------------------------------------------------
  // The WriteArbWaveformComplex handlers
  // ---------------------------------------------------------------------

  function AsCalls<T>(queries: seq<ErrorQuery>): (calls: seq<Call<T>>)
    ensures |calls| == |queries|
    ensures forall i :: 0 <= i < |calls| ==> calls[i] == Query(queries[i])
  {
    seq(|queries|, i requires 0 <= i < |queries| => Query(queries[i]))
  }

  /** The outcome of one WriteArbWaveformComplex request for session `name`:
      - a call cancelled on entry is CANCELLED and touches nothing;
      - a session that does not resolve gives the status of the exception,
        after the one lookup;
      - otherwise the driver is called once, with the buffer read as
        |wfmData| / 2 complex pairs and moreDataPending as given; a
        non-negative driver status is OK and is stored in the response, a
        negative one is translated and the response is left as it was. */
  ghost predicate HandledWrite<T>(
    context: ServerContext, name: string, waveformName: string, wfmData: seq<T>,
    moreDataPending: Option<bool>, response: WriteArbWaveformResponse,
    sessions: SessionRepository, driver: Driver<T>,
    st: GrpcStatus, response': WriteArbWaveformResponse, calls: seq<Call<T>>)
    requires |wfmData| / 2 <= Int32Max
  {
    if context.cancelled then
      st == CANCELLED && response' == response && calls == []
    else match sessions(name)
      case Thrown(failure) =>
        st == failure && response' == response && calls == [AccessSession(name)]
      case Resolved(vi) =>
        var args := WriteArgs(vi, waveformName, (|wfmData| / 2) as ViInt32, Pairs(wfmData), moreDataPending);
        var status := driver.writeArbWaveformComplex(args);
        var called := [AccessSession(name), WriteWaveform(args)];
        if StatusOk(status) then
          st == OK && response' == WriteArbWaveformResponse(status) && calls == called
        else
          st == ApiError(status, Diagnostic(driver.errors, vi, status)) && response' == response
          && calls == called + AsCalls(DiagnosticQueries(driver.errors, vi, status))
  }

  /** The control skeleton the three handlers share. */
  method WriteArbWaveformComplex<T>(
    context: ServerContext, session: Session, waveformName: string, wfmData: seq<T>,
    moreDataPending: Option<bool>, response: WriteArbWaveformResponse,
    sessions: SessionRepository, driver: Driver<T>)
    returns (st: GrpcStatus, response': WriteArbWaveformResponse, calls: seq<Call<T>>)
    requires |wfmData| / 2 <= Int32Max
    ensures HandledWrite(context, session.name, waveformName, wfmData, moreDataPending, response,
                         sessions, driver, st, response', calls)
  {
    response' := response;
    calls := [];
    if context.cancelled {
      return CANCELLED, response', calls;
    }
    calls := calls + [AccessSession(session.name)];
    var lookup := sessions(session.name);
    if lookup.Thrown? {
      // The NonDriverException handler.
      return lookup.status, response', calls;
    }
    var vi := lookup.vi;
    var wfmDataPtr := Pairs(wfmData);
    var numberOfSamples := (|wfmData| / 2) as ViInt32;
    var args := WriteArgs(vi, waveformName, numberOfSamples, wfmDataPtr, moreDataPending);
    calls := calls + [WriteWaveform(args)];
    var status := driver.writeArbWaveformComplex(args);
    if !StatusOk(status) {
      var queries;
      st, queries := ConvertApiErrorStatusForViSession(driver.errors, status, vi);
      calls := calls + AsCalls(queries);
      return;
    }
    response' := WriteArbWaveformResponse(status);
    st := OK;
  }

  /** WriteArbWaveformComplexF32: forwards request.more_data_pending. */
  method WriteArbWaveformComplexF32(
    context: ServerContext, request: WriteArbWaveformComplexF32Request,
    response: WriteArbWaveformResponse, sessions: SessionRepository, driver: Driver<ViReal32>)
    returns (st: GrpcStatus, response': WriteArbWaveformResponse, calls: seq<Call<ViReal32>>)
    requires |request.wfmData| / 2 <= Int32Max
    ensures HandledWrite(context, request.vi.name, request.waveformName, request.wfmData,
                         Some(request.moreDataPending), response, sessions, driver, st, response', calls)
  {
    st, response', calls := WriteArbWaveformComplex(
      context, request.vi, request.waveformName, request.wfmData, Some(request.moreDataPending),
      response, sessions, driver);
  }

  /** WriteArbWaveformComplexF64: forwards request.more_data_pending. */
  method WriteArbWaveformComplexF64(
    context: ServerContext, request: WriteArbWaveformComplexF64Request,
    response: WriteArbWaveformResponse, sessions: SessionRepository, driver: Driver<ViReal64>)
    returns (st: GrpcStatus, response': WriteArbWaveformResponse, calls: seq<Call<ViReal64>>)
    requires |request.wfmData| / 2 <= Int32Max
    ensures HandledWrite(context, request.vi.name, request.waveformName, request.wfmData,
                         Some(request.moreDataPending), response, sessions, driver, st, response', calls)
  {
    st, response', calls := WriteArbWaveformComplex(
      context, request.vi, request.waveformName, request.wfmData, Some(request.moreDataPending),
      response, sessions, driver);
  }

  /** WriteArbWaveformComplexI16: the driver call has no more_data_pending. */
  method WriteArbWaveformComplexI16(
    context: ServerContext, request: WriteArbWaveformComplexI16Request,
    response: WriteArbWaveformResponse, sessions: SessionRepository, driver: Driver<ViInt16>)
    returns (st: GrpcStatus, response': WriteArbWaveformResponse, calls: seq<Call<ViInt16>>)
    requires |request.wfmData| / 2 <= Int32Max
    ensures HandledWrite(context, request.vi.name, request.waveformName, request.wfmData,
                         None, response, sessions, driver, st, response', calls)
  {
    st, response', calls := WriteArbWaveformComplex(
      context, request.vi, request.waveformName, request.wfmData, None,
      response, sessions, driver);
  }

  // ---------------------------------------------------------------------
  // Properties of every handled request
  // ---------------------------------------------------------------------

  /** Cancellation and resolution failures come before any driver call, and
      every driver call is made on the handle the session name resolved to. */
  lemma DriverOnlyAfterResolution<T>(
    context: ServerContext, name: string, waveformName: string, wfmData: seq<T>,
    moreDataPending: Option<bool>, response: WriteArbWaveformResponse,
    sessions: SessionRepository, driver: Driver<T>,
    st: GrpcStatus, response': WriteArbWaveformResponse, calls: seq<Call<T>>, i: nat)
    requires |wfmData| / 2 <= Int32Max
    requires HandledWrite(context, name, waveformName, wfmData, moreDataPending, response,
                          sessions, driver, st, response', calls)
    requires i < |calls| && !calls[i].AccessSession?
    ensures !context.cancelled && sessions(name).Resolved?
    ensures calls[i].WriteWaveform? ==> calls[i].args.vi == sessions(name).vi && i == 1
    ensures calls[i].Query? ==> calls[i].query.vi == sessions(name).vi && i >= 2
  {
    if !context.cancelled && sessions(name).Resolved? {
      var vi := sessions(name).vi;
      var status := driver.writeArbWaveformComplex(calls[1].args);
      if !StatusOk(status) && i >= 2 {
        assert calls[i] == Query(DiagnosticQueries(driver.errors, vi, status)[i - 2]);
      }
    }
  }

  /** The driver sees every complete pair of the request's buffer, in order:
      its sample count is the number of pairs, and writing the pairs back out
      gives the buffer without an odd trailing component. */
  lemma DriverSeesWholePairs<T>(
    context: ServerContext, name: string, waveformName: string, wfmData: seq<T>,
    moreDataPending: Option<bool>, response: WriteArbWaveformResponse,
    sessions: SessionRepository, driver: Driver<T>,
    st: GrpcStatus, response': WriteArbWaveformResponse, calls: seq<Call<T>>, i: nat)
    requires |wfmData| / 2 <= Int32Max
    requires HandledWrite(context, name, waveformName, wfmData, moreDataPending, response,
                          sessions, driver, st, response', calls)
    requires i < |calls| && calls[i].WriteWaveform?
    ensures calls[i].args.numberOfSamples as int == |calls[i].args.waveformData| == |wfmData| / 2
    ensures Interleave(calls[i].args.waveformData) == wfmData[..|wfmData| - |wfmData| % 2]
    ensures calls[i].args.waveformName == waveformName && calls[i].args.moreDataPending == moreDataPending
  {
    DriverOnlyAfterResolution(context, name, waveformName, wfmData, moreDataPending, response,
                              sessions, driver, st, response', calls, i);
    InterleaveOfPairs(wfmData);
  }

  /** A request either fully succeeds (OK, with the driver's non-negative
      status stored in the response) or fails with the response untouched;
      a driver error carries the driver's own negative status. */
  lemma AllOrNothingResponse<T>(
    context: ServerContext, name: string, waveformName: string, wfmData: seq<T>,
    moreDataPending: Option<bool>, response: WriteArbWaveformResponse,
    sessions: SessionRepository, driver: Driver<T>,
    st: GrpcStatus, response': WriteArbWaveformResponse, calls: seq<Call<T>>)
    requires |wfmData| / 2 <= Int32Max
    requires HandledWrite(context, name, waveformName, wfmData, moreDataPending, response,
                          sessions, driver, st, response', calls)
    requires sessions(name) != Thrown(OK)
    ensures st == OK <==> |calls| == 2 && StatusOk(driver.writeArbWaveformComplex(calls[1].args))
    ensures st == OK ==> response'.status == driver.writeArbWaveformComplex(calls[1].args)
    ensures st != OK ==> response' == response
    ensures st.ApiError? && !context.cancelled && sessions(name).Resolved? ==>
      |calls| > 2 && st.status == driver.writeArbWaveformComplex(calls[1].args) && !StatusOk(st.status)
  {
    if !context.cancelled && sessions(name).Resolved? {
      var status := driver.writeArbWaveformComplex(calls[1].args);
      if !StatusOk(status) {
        assert |DiagnosticQueries(driver.errors, sessions(name).vi, status)| > 0;
      }
    }
  }
}
