# NI-RFSG gRPC service: error translation and complex-waveform handlers

This project models the hand-written part of the NI-RFSG gRPC service
(`source/custom/nirfsg_service.custom.cpp`) and proves properties of it in Dafny. That
part is a thin adapter between gRPC requests and the NI-RFSG driver library. It has
three pieces of decision logic:

- **Status classification.** `status_ok` treats a driver status as usable when it is
  non-negative. Zero is success and positive codes are warnings. This is
  `VisaTypes.StatusOk`. Its meaning is stated by the handler contracts below, where OK is
  returned exactly when the driver status satisfies it.
- **Error translation.** `ConvertApiErrorStatusForViSession` first asks the driver
  (`GetError`) for the most recent error on the session handle, with its message. If that
  error's code is not the status being reported, another call has changed the handle's
  error. The buffer is then cleared and refilled with the static message for the status
  (`ErrorMessage`). The status reported is always the original one.
- **Complex waveform handlers.** `WriteArbWaveformComplexF32`, `F64` and `I16` each go
  through the same steps:
  - check for cancellation;
  - resolve the session name to a handle;
  - read the flat interleaved sample buffer as `size / 2` complex pairs;
  - call the driver;
  - store the status in the response on success, or translate the error.

The driver, the session repository and the server context are inputs. Each foreign call
is a function parameter that gives the call's answer. These are:

- `SessionRepository`, for `access_session`;
- `ErrorQueries`, for `GetError` and `ErrorMessage`;
- `Driver<T>.writeArbWaveformComplex`, for the three write functions.

Every handler returns the list of calls it made (`Call<T>`), in order. This is how the
model states what a handler did *not* touch.

Files:

- `visa_types.dfy`: the 32-bit status, session and 16-bit types, the float sample types
  kept as bit patterns, and `StatusOk`.
- `c_strings.dfy`: the fixed-capacity description buffer.
  - `Nuls` builds a cleared buffer.
  - `WriteCString` is a driver writing a NUL-terminated message into the buffer.
  - `Text` is what a C reader sees in the buffer.
- `complex_buffers.dfy`: `Complex<T>`, the pair view `Pairs` and its inverse `Interleave`.
  The element type is a type parameter, so F32 maps to F32 pairs, F64 to F64 pairs and
  I16 to I16 pairs by typing.
- `nirfsg_service.dfy`: the error translation, the shared handler skeleton and the three
  handlers. `HandledWrite` is the handler specification, and lemmas about it follow.
- `scenarios.dfy`: four requests worked through against the contracts:
  - a success;
  - a driver error with a current dynamic message;
  - the same error after a race;
  - an unknown session.

  It also has a cancelled request.

Two behaviours of the code are worth stating on their own:

- An odd-length sample buffer is silently floored, not rejected
  (nirfsg_service.custom.cpp:47).
- An unresolved session yields whatever status its `NonDriverException` carries
  (:57-59).

## Model

| member | source | states |
|---|---|---|
| `CStrings.Text` | source/custom/nirfsg_service.custom.cpp:18-20 | the text a C reader sees in the buffer is its longest NUL-free prefix, followed in the buffer by a NUL unless it fills the buffer |
| `CStrings.Fit` | source/custom/nirfsg_service.custom.cpp:20 | a message written into a buffer of the given capacity keeps at most capacity - 1 characters, an exact prefix of the message |
| `CStrings.WriteCString` | source/custom/nirfsg_service.custom.cpp:20 | after the driver writes into the buffer, the buffer keeps its size, starts with the fitting part of the message, then has a NUL, and its later characters are unchanged |
| `CStrings.TextStopsAtNul` | source/custom/nirfsg_service.custom.cpp:23-24 | characters after a NUL are invisible to a C reader |
| `CStrings.TextOfWrite` | source/custom/nirfsg_service.custom.cpp:20-24 | the visible text after a driver write is the fitting part of the message, whatever the buffer held before |
| `CStrings.WholeMessageRead` | source/custom/nirfsg_service.custom.cpp:16-24 | a NUL-free message shorter than the buffer is read back whole |
| `ComplexBuffers.Pairs` | source/custom/nirfsg_service.custom.cpp:43-47 | the view has exactly `size / 2` (floor) pairs, and pair i has real part `wfm_data[2i]` and imaginary part `wfm_data[2i+1]` |
| `ComplexBuffers.Interleave` | source/custom/nirfsg_service.custom.cpp:44-45 | the wire form of n complex pairs has 2n components |
| `ComplexBuffers.PairsOfInterleave` | source/custom/nirfsg_service.custom.cpp:76-78 | reading the wire form of any complex array as pairs gives back that array |
| `ComplexBuffers.InterleaveOfPairs` | source/custom/nirfsg_service.custom.cpp:109-113 | writing the pairs back out gives the sample buffer without its odd trailing component |
| `ComplexBuffers.TrailingComponentDropped` | source/custom/nirfsg_service.custom.cpp:47 | appending one component to an even-length buffer does not change the view: an odd trailing sample is silently dropped |
| `NiRfsgService.Diagnostic` | source/custom/nirfsg_service.custom.cpp:17-25 | the reported description buffer always has the full capacity kMaxGrpcErrorDescriptionSize |
| `NiRfsgService.ConvertApiErrorStatusForViSession` | source/custom/nirfsg_service.custom.cpp:14-27 | translation never fails. It always yields an API error carrying the original `status`, never GetError's code. The description is GetError's buffer when GetError saw `status`, and otherwise a cleared buffer with ErrorMessage's text. It calls ErrorMessage only in the second case |
| `NiRfsgService.DiagnosticText` | source/custom/nirfsg_service.custom.cpp:19-25 | the visible description is the dynamic message exactly when GetError's code equals `status`, and the static message for `status` otherwise |
| `NiRfsgService.FailureDescribedByItsOwnCode` | source/custom/nirfsg_service.custom.cpp:19-26 | for a failing status, the description is never about another code. It is either the message GetError gave for that very code, or the static message for it |
| `NiRfsgService.RaceFallbackHoldsOnlyStaticMessage` | source/custom/nirfsg_service.custom.cpp:21-24 | on the fallback path, nothing GetError wrote survives: the buffer is the static message followed by NULs only |
| `NiRfsgService.UntouchedProbeFallsBack` | source/custom/nirfsg_service.custom.cpp:17-21 | a GetError that wrote nothing leaves `error_code` at its initial 0, so every failing status uses the static message |
| `NiRfsgService.WriteArbWaveformComplex` | source/custom/nirfsg_service.custom.cpp:33-59 | the shared handler skeleton meets `HandledWrite`. A cancelled call is CANCELLED and touches nothing. A failed session lookup gives the exception's status after one lookup. Otherwise the driver is called once with the resolved handle, `size / 2` samples and the pair view; a non-negative status is OK with `response.status` set, and a negative one is translated with the response untouched |
| `NiRfsgService.WriteArbWaveformComplexF32` | source/custom/nirfsg_service.custom.cpp:31-60 | the F32 handler meets `HandledWrite` with F32 pairs and forwards `more_data_pending` unchanged |
| `NiRfsgService.WriteArbWaveformComplexF64` | source/custom/nirfsg_service.custom.cpp:64-93 | the F64 handler meets `HandledWrite` with F64 pairs and forwards `more_data_pending` unchanged |
| `NiRfsgService.WriteArbWaveformComplexI16` | source/custom/nirfsg_service.custom.cpp:97-125 | the I16 handler meets `HandledWrite` with I16 pairs and passes no `more_data_pending` argument |
| `NiRfsgService.DriverOnlyAfterResolution` | source/custom/nirfsg_service.custom.cpp:33-38 | a driver call happens only if the call was not cancelled and the session resolved. The write is the second call, and the write and every error query use the resolved handle |
| `NiRfsgService.DriverSeesWholePairs` | source/custom/nirfsg_service.custom.cpp:42-50 | the driver's sample count equals the number of pairs it receives, which is `size / 2`. Those pairs, written back out, are the request buffer without an odd trailing component. The waveform name and `more_data_pending` are passed unchanged |
| `NiRfsgService.AllOrNothingResponse` | source/custom/nirfsg_service.custom.cpp:50-55 | when the session exception's status is not OK, OK is returned exactly when the driver was called and its status satisfies `VisaTypes.StatusOk` (`status_ok`, :7-10: non-negative), and then the response holds that status. Every other outcome leaves the response untouched. A driver error carries the driver's own negative status |

## Left out

- The gRPC transport, the `ServerContext` internals and `::grpc::Status` are not
  modelled. The context is reduced to its cancellation flag.
  `ApiErrorAndDescriptionToStatus` is the uninterpreted constructor `GrpcStatus.ApiError`.
  Its formatting, and its use of the context, are not part of this model.
- The driver library is not modelled; its calls are function parameters.
  - `GetError`, `ErrorMessage` and the three write functions return what the parameters
    say.
  - A driver write into the description buffer is assumed to put at most capacity - 1
    characters and a NUL at the front, leaving the rest unchanged (`WriteCString`).
  - The return value of `GetError` itself is ignored by the source and is not modelled.
- `kMaxGrpcErrorDescriptionSize` is declared outside this file. The model fixes it at
  1024, the lower bound the source's `static_assert` requires.
- The session repository's storage and lifecycle are not modelled. `access_session` is a
  function from a name to a handle or a thrown status.
- `convert_from_grpc<std::string>` (MBCS conversion) is treated as the identity on the
  waveform name. A `NonDriverException` thrown by it is not modelled separately. It would
  take the same catch path as a session failure.
- Sample values are not interpreted. F32 and F64 samples are carried as bit patterns, and
  no floating-point operation is modelled.
- The `reinterpret_cast` view shares storage with the request buffer. The model builds
  the pair sequence as a value (`Pairs`), so aliasing and memory layout are not captured.
- Concurrency on the driver's per-handle error state is not modelled. It appears only in
  `GetError` being free to report any code.
- The C++ exception mechanism is not modelled. A `NonDriverException` is the `Thrown`
  result of the session lookup.
- A `NonDriverException` thrown by a driver call is not modelled. The `try` at :36-56
  also covers the write and the `GetError` and `ErrorMessage` calls of the translation,
  and such an exception would also become `ex.GetStatus()` (:57-59). In the model, the
  driver's calls always return a value.
- The three response messages are one datatype, `WriteArbWaveformResponse`. The
  `response` out-parameter is passed in and the updated value is returned.
- NiRfsgService.WriteArbWaveformComplexF32, NiRfsgService.WriteArbWaveformComplexF64,
  NiRfsgService.WriteArbWaveformComplexI16 and NiRfsgService.WriteArbWaveformComplex
  require `size / 2` to fit in `ViInt32`. The `static_cast<ViInt32>` of a larger value is
  not modelled. Protobuf repeated-field sizes are `int`, so the bound always holds for a
  real request.
