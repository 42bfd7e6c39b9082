# 5-DOF cart-pole control: a verified model of its core

The repository simulates and controls a two-wheeled cart that carries a
pole, with five generalised coordinates x, y, z, θ, φ. Three groups of
code hold its logic:

- A Python digital twin steps the dynamics with a Moreau–Jean contact
  time-stepper (`SolverLcp`). At each step it does the following:
  - computes a free velocity from the mass matrix;
  - finds the constraints that would be violated after free motion;
  - solves a small linear complementarity problem (LCP) for the contact
    impulse;
  - assembles the next interleaved 10-slot state
    `[x, ẋ, y, ẏ, z, ż, θ, θ̇, φ, φ̇]`.
- A `Vec3` value type supports the twin's geometry.
- ESP32 firmware covers three jobs:
  - an MPU9250 driver decodes raw IMU samples;
  - an HTTP response buffer collects the bytes of a reply;
  - a Firebase client normalises its host, keeps its sign-in token and
    builds the data URLs.

The project models these parts in Dafny:

- **`Solver`** (`solver.dfy`, with the vector helpers in `linalg.dfy`):
  - the state layout and the closed-form point maps, mass matrices and
    constraint functions;
  - `solve_lcp`, with its symmetrised and regularised matrix and its
    clamp;
  - `dynamics_constrained` as an imperative method over arrays, proved
    equal to a specification function `NextState`;
  - `step`, and `solve`'s loop that fills the trajectory row by row,
    proved to hold k applications of the step in row k.
- **`LinAlg`** (`linalg.dfy`): the numpy operations the solver uses.
  Vector and matrix algebra, boolean-mask selection (`a[mask]`,
  `A[:, mask]`) and scattering into zeros are functions on sequences.
  The in-place statements `a += b`, `a[mask] = vals` and
  `a[start::2] = vals` are methods on arrays, each proved to have
  numpy's semantics.
- **`Http`** (`http.dfy`): the static response buffer as a class holding
  a byte array and a write cursor, plus a value-level event function that
  the lemmas reason about.
- **`Firebase`** (`firebase.dfy`): C strings as NUL-terminated
  `seq<char>` contents. The class writes its fixed 64- and 1024-byte
  arrays in place.
- **`Mpu9250`** (`mpu9250.dfy`): the big-endian int16 decode with
  explicit 16-bit wrap-around, and the per-axis remap.
- **`TwinVec3`** (`vec3.dfy`):
  - Python's dynamically typed operands are a `Value` datatype;
  - exceptions are `Err` results;
  - the in-place members are a class.
- **`Wrappers`** (`wrappers.dfy`): the `Option` and `Result` types.

Floating point is modelled as `real` throughout.

The model treats several library calls as oracles: fields of a
`Numerics` value whose shapes the ghost predicate `Solver.Shaped` states.
They are:

- sin and cos;
- the bias vector H;
- `np.linalg.solve`;
- `solve_qp`.

Where comments in the source disagree with its code, the model follows
the code:

- The docstring of `dynamics_constrained` states
  `v⁺ = v⁻ − dt·M⁻¹Jᵀλ` and `qⁿ⁺¹ = qⁿ + dt·v⁺`. The code adds
  `M⁻¹Jᵀλ` without dt, and updates positions with
  `qⁿ + ½dt(3v⁺ − vⁿ)`.
- The step count of `solve` is `int(...)`, which truncates toward zero.
  It is not a ceiling.

## Model

| member | source | states |
|---|---|---|
| Solver.Positions | model/solver.py:374 | the positions are the even slots of the 10-slot state (`fq[0::2]`), fq[0] first and fq[8] last |
| Solver.Velocities | model/solver.py:375 | the velocities are the odd slots (`fq[1::2]`), fq[1] first and fq[9] last |
| Solver.SlotsOf | model/solver.py:374-375 | position i is slot 2i and velocity i is slot 2i+1, for every i |
| Solver.InterleaveSlots | model/solver.py:412-414 | the assembled state holds q[k/2] in every even slot k and v[k/2] in every odd slot |
| Solver.SplitInterleave | model/solver.py:374-414 | splitting an assembled state gives back the positions and the velocities it was built from |
| Solver.InterleaveSplit | model/solver.py:374-414 | reassembling the split of any state gives back that state |
| Solver.Interleave | model/solver.py:412-414 | the assembled state has 10 slots, q[0] first and v[4] last; `InterleaveSlots` gives every slot |
| Solver.Xo | model/solver.py:11-23 | the cart origin is the first three positions (x, y, z) |
| Solver.XoDot | model/solver.py:25-37 | ż passes through unchanged. The wheel drive moves (ẋ, ẏ) by a vector of length 0.03625·(ω_l + ω_r) (given sin² + cos² = 1 for φ), so with ω_l + ω_r = 0 the origin velocity is (ẋ, ẏ, ż) |
| Solver.Xco | model/solver.py:39-51 | the pole offset is a 3-vector; `OffsetLength` proves its length is 0.08 |
| Solver.XcoDot | model/solver.py:53-65 | the offset velocity is a 3-vector; `OffsetRateOrthogonal` proves it orthogonal to the offset |
| Solver.Xc | model/solver.py:67-79 | the pole point is the cart origin plus the pole offset, component by component |
| Solver.XcDot | model/solver.py:81-93 | the pole-point velocity is the origin velocity plus the offset velocity, component by component |
| Solver.OffsetLength | model/solver.py:39-51 | the pole offset always has length 0.08 (squared norm 0.0064), given sin² + cos² = 1 for θ and φ |
| Solver.OffsetRateOrthogonal | model/solver.py:39-65 | the offset velocity is orthogonal to the offset, as a rigid rotation's must be |
| Solver.Mass | model/solver.py:95-109 | `fn_M` is a symmetric 5×5 matrix with a positive diagonal; `MassPositiveDefinite` proves it positive definite |
| Solver.MassRows | model/solver.py:103-109 | M·x is, for every x, the five rows of `fn_M` multiplied out against x |
| Solver.MassQuadratic | model/solver.py:103-109 | xᵀMx is the explicit quadratic form in x and the sines and cosines of θ and φ |
| Solver.MassSquares | model/solver.py:103-109 | when sin² + cos² = 1 for θ and φ, 0.7·xᵀMx is a sum of squares with positive weights: three mixed terms, 0.0049·x₃², 0.003136·sin²θ·x₄² and 0.0014·x₄² |
| Solver.MassFormPositive | model/solver.py:103-109 | that quadratic form is positive for every non-zero x when sin² + cos² = 1 for θ and φ |
| Solver.MassPositiveDefinite | model/solver.py:95-109 | `fn_M` is positive definite: xᵀMx > 0 for every non-zero x, given sin² + cos² = 1 for θ and φ |
| Solver.MassDependsOnAngles | model/solver.py:103-109 | `fn_M` depends only on θ and φ: two states with equal angles have equal mass matrices, whatever their other slots and inputs |
| Solver.Mass1d | model/solver.py:143-162 | `fn_M1d` is 10×10; `Mass1dBlocks` proves its block-diagonal form |
| Solver.Mass1dBlocks | model/solver.py:151-162 | `fn_M1d` is block-diagonal: identity in the upper-left 5×5 block, zero off-diagonal blocks, `fn_M` in the lower-right block |
| Solver.Cons | model/solver.py:214-217 | the first constraint is the height z |
| Solver.ConsJac | model/solver.py:219-230 | `fn_Cons_gradq` is 2×5; `ConsJacColumns` proves it is the derivative of `fn_Cons` in z, and zero in x, y and φ |
| Solver.ConsJacColumns | model/solver.py:214-230 | the Jacobian's columns for x, y and φ are zero; moving z by d moves both constraints by d times the z column; the constraints depend only on z and θ |
| Solver.ConsJacRate | model/solver.py:227-230 | J·v = [v_z, v_z − 0.25 sin θ · v_θ] for every velocity v |
| Solver.LcpMatrix | model/solver.py:339 | P = ½(A + Aᵀ) + reg·I entry by entry, and P is symmetric |
| Solver.LcpMatrixSymmetric | model/solver.py:339 | P equals its transpose and has A's diagonal plus reg |
| Solver.SolveLcp | model/solver.py:313-351 | the result has the length of b, is the QP answer clamped at 0, and is therefore non-negative |
| Solver.FreeVelocity | model/solver.py:378-383 | v⁻ has five entries, and v⁻_i = vn_i + dt·a⁻_i with a⁻ = `solve(M, −H)` |
| Solver.PredictedGaps | model/solver.py:386-390 | `C_pred` is z + dt·v⁻_z for the wheel and z + 0.25 cos θ + 0.0725 + dt(v⁻_z − 0.25 sin θ · v⁻_θ) for the body |
| Solver.ActiveSet | model/solver.py:214-391 | contact 0 (the wheel) is active iff z + dt·v⁻_z < 0, and contact 1 (the body) iff z + 0.25 cos θ + 0.0725 + dt(v⁻_z − 0.25 sin θ · v⁻_θ) < 0, where v⁻ is the free velocity |
| Solver.GapSigns | model/solver.py:391 | `C_pred < 0.0` sets the flag of each constraint exactly when its predicted gap is negative |
| Solver.MinvJt | model/solver.py:400 | column k of M⁻¹Jᵀ is the linear solve of M against row k of J |
| Solver.Impulse | model/solver.py:396-406 | λ has one entry per constraint; `ImpulseShape` proves its sign, its zeros and its values |
| Solver.PostVelocity | model/solver.py:395-407 | v⁺ has five entries; `ImpulseCorrection` proves v⁺ = v⁻ + (M⁻¹Jᵀ)·λ |
| Solver.ImpulseShape | model/solver.py:396-406 | λ is non-negative everywhere and zero on inactive constraints; on the active set it is `solve_lcp` of the reduced `J_act·(M⁻¹Jᵀ)_act` and `J_act·v⁻` |
| Solver.NoContactNoImpulse | model/solver.py:395-397 | with no active constraint λ is the zero vector and v⁺ = v⁻ |
| Solver.ImpulseCorrection | model/solver.py:395-407 | v⁺ = v⁻ + (M⁻¹Jᵀ)·λ |
| Solver.PositionUpdate | model/solver.py:410 | `qn + 0.5·dt·(v⁺ + v⁺ + v⁺ − vn)` is `q_i + ½dt(3v⁺_i − v_i)` in every coordinate |
| Solver.NextPositions | model/solver.py:410 | the next positions have five entries; `NextPositionsRule` gives each one |
| Solver.NextPositionsRule | model/solver.py:410 | the next positions are `q_i + ½dt(3v⁺_i − v_i)` |
| Solver.NextStateLayout | model/solver.py:412-415 | the next state has the next positions in its even slots and v⁺ in its odd slots |
| Solver.NextState | model/solver.py:409-415 | the next state has 10 slots; `NextStateLayout` gives its halves and `DynamicsConstrained` computes it |
| Solver.DynamicsConstrained | model/solver.py:357-415 | the in-place array computation returns a fresh array equal to `NextState` |
| Solver.ResolveContacts | model/solver.py:395-407 | starting from v⁺ = v⁻ with λ zeroed, the in-place contact step (`lam[C_act] = …` when some constraint is active, then `v_plus += M_inv_Jt @ lam`) leaves v⁺ equal to `PostVelocity`, which `ImpulseCorrection` proves is v⁻ + (M⁻¹Jᵀ)·λ |
| Solver.AssembleState | model/solver.py:412-414 | the two strided slice assignments into a zeroed array produce the interleaved state |
| Solver.Step | model/solver.py:417-420 | `step` returns dt and row 1 of the trajectory, the state after one application of the step |
| Solver.Orbit | model/solver.py:426-430 | k applications of a step give k + 1 states, starting at f0 |
| Solver.OrbitPrefix | model/solver.py:429-430 | the first m + 1 states of a longer run are the run of m steps |
| Solver.OrbitStep | model/solver.py:430 | each state of the run is the step applied to the one before |
| Solver.StepMap | model/solver.py:430 | the step `solve` iterates is `dynamics_constrained(dt, ·, fv)` on every 10-slot state |
| Solver.Trajectory | model/solver.py:426-430 | the trajectory has k + 1 rows and row 0 is f0 |
| Solver.TrajectoryStep | model/solver.py:430 | row i + 1 of the trajectory is `NextState` of row i |
| Solver.TrajectoryPrefix | model/solver.py:429-430 | a longer trajectory starts with every shorter one |
| Solver.Trunc | model/solver.py:423 | `int(x)` truncates toward zero: the integer between 0 and x that is less than 1 away from x |
| Solver.Linspace | model/solver.py:424 | `np.linspace(a, b, num)` has num samples, equally spaced from a and ending at b |
| Solver.Simulate | model/solver.py:426-430 | the loop fills a fresh (steps+1)×10 array whose row i is the state after i steps |
| Solver.Advance | model/solver.py:430 | one iteration writes the step of row i into row i + 1 and changes no other row |
| Solver.ReadRow | model/solver.py:430 | reading `sol_y[iter - 1]` returns exactly that row |
| Solver.WriteRow | model/solver.py:430 | assigning `sol_y[iter]` sets that row and leaves every other row unchanged |
| Solver.RowIsUnique | model/solver.py:430 | a stored row determines the state it holds |
| Solver.TransposeTrajectory | model/solver.py:432 | `sol_y.T` swaps the two indices of every entry |
| Solver.Solve | model/solver.py:422-432 | dt = 0 raises ZeroDivisionError; a step count below −1 raises ValueError; exactly −1 raises IndexError. Otherwise the sample times are the `linspace` and `ys[j, k]` is slot j of the state after k steps |
| Solver.SampleTimesOnGrid | model/solver.py:423-424 | when t1 is a whole number of steps, the sample times are k·dt |
| Solver.SampleTimesOffGrid | model/solver.py:423-424 | when it is not, the `linspace` samples are not the times of the states: t1 = 1, dt = 0.3 gives 3 steps and sample 1 at 1/3, not 0.3 |
| Http.ConnectedClears | esw/src/http.cpp:38-42 | ON_CONNECTED zeroes every byte of the buffer and sets the cursor to 0 |
| Http.DataAppends | esw/src/http.cpp:54-58 | ON_DATA puts the chunk at the cursor and advances the cursor by its length; the bytes before the old cursor and after the chunk are unchanged |
| Http.FinishKeepsResponse | esw/src/http.cpp:50-53 | ON_FINISH rewinds the cursor and keeps the buffer contents |
| Http.OtherEventsInert | esw/src/http.cpp:34-65 | ERROR, HEADER_SENT, ON_HEADER, DISCONNECTED and REDIRECT change neither the buffer nor the cursor |
| Http.Handle | esw/src/http.cpp:34-65 | an event keeps the buffer size and a cursor within it. ON_CONNECTED and ON_FINISH set the cursor to 0, ON_DATA advances it by the chunk length, and other events keep it. Every event except ON_CONNECTED keeps the bytes before the cursor |
| Http.DataKeepsTerminated | esw/src/http.cpp:54-58 | an append that leaves at least one byte free keeps every byte from the cursor on NUL |
| Http.Receive | esw/src/http.cpp:54-58 | successive ON_DATA chunks advance the cursor by their total length and keep the bytes before the start cursor |
| Http.DataExtendsPrefix | esw/src/http.cpp:54-58 | one ON_DATA into a buffer holding a prefix followed by NULs extends the prefix by the chunk and leaves NULs from the new cursor on |
| Http.ReceiveFrom | esw/src/http.cpp:54-58 | successive chunks written into a prefix followed by NULs extend the prefix by their concatenation |
| Http.ResponseAssembled | esw/src/http.cpp:38-58 | after ON_CONNECTED, chunks totalling fewer than bufferSize_ bytes lie in order at the front of the buffer; the cursor is at their end and NUL follows it |
| Http.HttpBuffer.constructor | esw/src/http.cpp:7-11 | the static buffer starts as 4096 zero bytes with the cursor at 0 |
| Http.HttpBuffer.GetBufferSize | esw/src/http.cpp:13 | returns bufferSize_ and changes nothing |
| Http.HttpBuffer.SetBufferSize | esw/src/http.cpp:15-19 | installs a fresh zeroed buffer of the new size and keeps the old cursor |
| Http.HttpBuffer.GetBuffer | esw/src/http.cpp:21 | returns the buffer itself |
| Http.HttpBuffer.ClearBuffer | esw/src/http.cpp:23-27 | zeroes the buffer and sets the cursor to 0 |
| Http.HttpBuffer.GetOutputLen | esw/src/http.cpp:29 | returns the cursor and changes nothing |
| Http.HttpBuffer.HttpEventHandler | esw/src/http.cpp:31-68 | applies the event's effect to the buffer and the cursor in place, and returns ESP_OK for every event |
| Firebase.CStr | esw/src/firebase.cpp:43 | `strlen`: the characters before the first NUL, which is at that index when the string is shorter than the array |
| Firebase.StrNCpy | esw/src/firebase.cpp:39-40 | `strncpy(dst, src, n)` writes src's characters, then NUL padding, exactly n cells |
| Firebase.Snprintf | esw/src/firebase.cpp:48-51 | the output has fewer characters than the buffer size and is a prefix of the input, the whole input when it fits |
| Firebase.CleanHost | esw/src/firebase.cpp:33-38 | `https://` is stripped exactly when it is a prefix; otherwise the host is kept |
| Firebase.PrefixStripped | esw/src/firebase.cpp:33-38 | `https://` + rest becomes rest; a host without the prefix is copied as given |
| Firebase.Copied | esw/src/firebase.cpp:39-40 | at most 62 characters of the cleaned host reach host_, and all of them when it is no longer |
| Firebase.LongHostTruncated | esw/src/firebase.cpp:39-40 | a cleaned host longer than 62 characters is cut at 62 before the slash is considered |
| Firebase.Normalized | esw/src/firebase.cpp:39-46 | the normalised host ends in '/', has 1 to 63 characters, is the copied host or that plus '/', and is the copied host when that already ends in '/' |
| Firebase.HostBuffer | esw/src/firebase.cpp:39-46 | host_ is 64 cells: the normalised host, then NULs to the end, with the last cell NUL |
| Firebase.NormalizeAsWritten | esw/src/firebase.cpp:43-46 | the slash test as written is defined exactly when the copied host is non-empty; there it keeps a host ending in '/' and otherwise appends one |
| Firebase.NormalizedShape | esw/src/firebase.cpp:39-46 | the normalised host ends in '/', has 1 to 63 characters, and host_ reads back as it with host_[63] NUL |
| Firebase.WellFormedHostUnchanged | esw/src/firebase.cpp:33-46 | a host without the prefix, ending in '/' and at most 62 characters long is stored unchanged |
| Firebase.AsWrittenReadsOutOfBounds | esw/src/firebase.cpp:43 | the slash test as written reads outside host_ exactly when the cleaned host is empty (host `https://` or empty); otherwise it agrees with the corrected normalisation |
| Firebase.TerminatedLength | esw/src/firebase.cpp:43 | `strlen(host_)` of the copied host followed by NULs is the length of the copied host |
| Firebase.SlashAppended | esw/src/firebase.cpp:44-45 | writing '/' and NUL after the copied host gives the host with '/' appended, then NULs |
| Firebase.CopiedReadsBack | esw/src/firebase.cpp:39-40 | a buffer holding c followed by NULs up to its end reads back as c |
| Firebase.SignUpUrlFits | esw/src/firebase.cpp:48-51 | the sign-up URL of any accepted key (at most 64 characters) fits the 256-byte buffer untruncated |
| Firebase.DataUrl | esw/src/firebase.cpp:136-138 | the URL has the length of its five parts, starts with `https://` and the host, and ends with the token |
| Firebase.DataUrlFits | esw/src/firebase.cpp:136-157 | the URL buffer of size 64 + len(host) + len(path) + len(token) + 1 always holds `https://` + host + path + `.json?auth=` + token without truncation |
| Firebase.TokenCopyTerminated | esw/src/firebase.cpp:119-122 | the token copy leaves idToken_ holding at most 1023 characters of the token, NUL-terminated |
| Firebase.Firebase.constructor | esw/src/firebase.cpp:16-63 | a missing or over-long key returns early with no key, an empty host_ and no client. A missing or over-long host returns early after the key is set. Otherwise host_ holds the normalised host and the client is set up with the sign-up URL |
| Firebase.Firebase.WriteHost | esw/src/firebase.cpp:32-46 | on a zeroed host_ the in-place strncpy, terminator and slash stores leave the normalised host followed by NULs |
| Firebase.Firebase.AppendSlash | esw/src/firebase.cpp:43-46 | when the copied host is empty or does not end in '/', '/' and NUL are stored just after it; otherwise host_ is unchanged |
| Firebase.Firebase.CopyHost | esw/src/firebase.cpp:39-40 | `strncpy(host_, clean, 62)` and `host_[62] = '\0'` leave the copied host followed by NULs |
| Firebase.Firebase.SignInAnonymously | esw/src/firebase.cpp:93-128 | a failed request or an unparsable reply returns ESP_FAIL and changes nothing. A parsed 200 reply returns ESP_OK, sets isConnected_, and copies a string token with strncpy(…, 1023) |
| Firebase.Firebase.Send | esw/src/firebase.cpp:130-147 | issues a request only when connected: a PUT of the JSON body to the data URL |
| Firebase.Firebase.Read | esw/src/firebase.cpp:149-172 | issues a request only when connected: a GET without body to the data URL |
| LinAlg.AddInPlace | model/solver.py:407 | `a += b` leaves in a the entrywise sum of its old contents and b |
| LinAlg.MaskedAssign | model/solver.py:406 | `a[mask] = vals`: slots off the mask keep their values, and masked slot i receives vals[k], where k is the number of masked slots before i |
| LinAlg.StridedAssign | model/solver.py:413-414 | `a[start::2] = vals`: slot k with k mod 2 = start receives vals[k div 2], and the other slots keep their values |
| LinAlg.ScatterAt | model/solver.py:396-406 | after `lam[mask] = vals` on a zero vector, entry i is vals[k] on the mask, where k is the number of masked slots before i, and 0 off it |
| LinAlg.SelectScatter | model/solver.py:399-406 | selecting the masked entries of a scatter gives back the scattered values |
| LinAlg.ScatterNonNegative | model/solver.py:406 | a scatter of non-negative values is non-negative everywhere |
| Mpu9250.ToInt16 | esw/src/mpu9250.cpp:101-106 | conversion to int16_t keeps values in range and otherwise wraps modulo 2¹⁶ |
| Mpu9250.DecodeWord | esw/src/mpu9250.cpp:101-106 | a decoded sample is negative exactly when the high byte has its top bit set, and its low 8 bits are the low byte |
| Mpu9250.WordRoundTrip | esw/src/mpu9250.cpp:101-106 | splitting any int16 into its big-endian bytes and decoding gives it back |
| Mpu9250.BytesRoundTrip | esw/src/mpu9250.cpp:101-106 | decoding any byte pair and splitting the result gives the pair back |
| Mpu9250.Decode | esw/src/mpu9250.cpp:100-106 | tmp[k] is the big-endian word of bytes 2k and 2k+1 for the accelerometer and of bytes 8+2k and 9+2k for the gyroscope, k < 3 |
| Mpu9250.DecodeEncode | esw/src/mpu9250.cpp:100-106 | decoding the 14-byte block of six samples recovers them, whatever the temperature bytes |
| Mpu9250.EncodeDecode | esw/src/mpu9250.cpp:100-106 | re-encoding a decoded block with its own bytes 6–7 gives the block back |
| Mpu9250.DecodeSkipsTemperature | esw/src/mpu9250.cpp:100-106 | bytes 6 and 7 do not influence the decoded samples |
| Mpu9250.ApplySign | esw/src/mpu9250.cpp:109-115 | the stored product is sign × sample when that fits int16, and is congruent to it modulo 2¹⁶ in every case |
| Mpu9250.Remap | esw/src/mpu9250.cpp:108-115 | output axis k of the accelerometer is sign_k × tmp[idx_k], and of the gyroscope sign_k × tmp[3 + idx_k] |
| Mpu9250.IdentityRemap | esw/src/mpu9250.cpp:10-115 | with `DEF_ID` every output field is the decoded sample of the same axis and sensor |
| Mpu9250.SensorsShareMap | esw/src/mpu9250.cpp:108-115 | accelerometer and gyroscope share one permutation and set of signs: exchanging the halves of tmp exchanges the output triples |
| Mpu9250.SignSemantics | esw/src/mpu9250.cpp:109-115 | sign +1 passes every sample; sign −1 negates every sample except −32768 |
| Mpu9250.NegationOverflow | esw/src/mpu9250.cpp:109-115 | −1 × −32768 = 32768 does not fit int16; the stored value wraps back to −32768 |
| Mpu9250.MPU9250.constructor | esw/src/mpu9250.cpp:16-28 | a null map installs `DEF_ID`; otherwise the caller's three entries are copied; the bus settings are kept |
| Mpu9250.MPU9250.ReadRaw | esw/src/mpu9250.cpp:95-118 | a failed register read returns its error and leaves out unchanged; otherwise out is the remap of the decoded block |
| TwinVec3.Construct | twin/vec3.py:8-27 | the constructor succeeds exactly for one Vec3, one 3-element list, tuple or ndarray, or three numbers, and copies them. A wrong-length sequence raises ValueError; every other shape raises TypeError |
| TwinVec3.ConstructAccepts | twin/vec3.py:8-24 | each accepted argument shape yields its three components as floats |
| TwinVec3.ConstructRejects | twin/vec3.py:18-27 | a wrong argument count, one argument that is neither a Vec3 nor a list, tuple or ndarray, or three arguments one of which is not a number, raises TypeError |
| TwinVec3.Add | twin/vec3.py:56-67 | + succeeds exactly for a number, a Vec3 or an ndarray of at least 3 entries. A shorter ndarray raises IndexError and anything else TypeError. Subtracting the operand again gives back self |
| TwinVec3.Sub | twin/vec3.py:72-83 | − succeeds for the same operands as +, with the same errors; with a Vec3 it is the componentwise difference |
| TwinVec3.RAdd | twin/vec3.py:69-70 | s + v for a number s is (s + v.x, s + v.y, s + v.z), and succeeds for the operands of + |
| TwinVec3.RSub | twin/vec3.py:85-86 | as written, s − v for a number s is (v.x − s, v.y − s, v.z − s) |
| TwinVec3.RSubCorrected | twin/vec3.py:85-86 | the corrected s − v succeeds exactly for a number s, and adding v back gives (s, s, s) |
| TwinVec3.Mul | twin/vec3.py:88-92 | × succeeds exactly for a number or a Vec3 and otherwise raises AttributeError; with a Vec3 its components sum to the dot product |
| TwinVec3.TrueDiv | twin/vec3.py:113-117 | / raises ZeroDivisionError exactly for a zero number or a Vec3 with a zero component, AttributeError for any other non-number non-Vec3, and otherwise multiplying back gives self |
| TwinVec3.Neg | twin/vec3.py:119-120 | −v + v is the zero vector |
| TwinVec3.MatMul | twin/vec3.py:97-103 | as written, @ succeeds exactly for a shape-(3,) ndarray, giving the dot product; a Vec3 operand fails |
| TwinVec3.MatMulCorrected | twin/vec3.py:97-103 | the corrected @ succeeds for a Vec3 or a shape-(3,) ndarray; a Vec3 acts like the ndarray of its entries and other operands as before |
| TwinVec3.AddBroadcasts | twin/vec3.py:56-74 | adding or subtracting a number is the same as with the vector of three copies of it |
| TwinVec3.NdArrayActsLikeVec3 | twin/vec3.py:60-80 | an ndarray operand acts through its first three entries, like the Vec3 holding them |
| TwinVec3.AddSubRejectUnsupported | twin/vec3.py:66-83 | a list, tuple or other operand makes + and − raise TypeError |
| TwinVec3.AddSubInverse | twin/vec3.py:63-80 | Vec3 addition is commutative, and (a − b) + b = a |
| TwinVec3.RAddIsSum | twin/vec3.py:69-70 | s + v is v + s componentwise for every number s |
| TwinVec3.RSubComputesSelfMinusOther | twin/vec3.py:85-86 | as written, s − v evaluates to v − s for every number s |
| TwinVec3.RSubCounterexample | twin/vec3.py:85-86 | 0 − Vec3(1, 1, 1) gives (1, 1, 1) as written, and (−1, −1, −1) with the correction |
| TwinVec3.RSubCorrectedIsReflected | twin/vec3.py:85-86 | the corrected s − v is −(v − s), and equals (−v) + s |
| TwinVec3.MulDivByScalar | twin/vec3.py:88-115 | multiplying by a non-zero number and then dividing by it gives the original |
| TwinVec3.MulDivByVec3 | twin/vec3.py:92-117 | componentwise multiplication and division by a Vec3 with non-zero components cancel |
| TwinVec3.DivByZeroRaises | twin/vec3.py:113-117 | division by a zero number, or by a Vec3 with a zero component, raises ZeroDivisionError |
| TwinVec3.NegInvolution | twin/vec3.py:88-120 | −(−v) = v, and −v is v × (−1) |
| TwinVec3.MatMulVec3Fails | twin/vec3.py:97-99 | as written, v @ w fails for every Vec3 operand w |
| TwinVec3.MatMulCorrectedIsDot | twin/vec3.py:97-103 | the corrected v @ w is symmetric, agrees with the ndarray branch, and v @ v ≥ 0 |
| TwinVec3.CrossMatrixSkew | twin/vec3.py:139-144 | `cross_matrix(a)` is skew-symmetric |
| TwinVec3.CrossMatrix | twin/vec3.py:139-144 | `cross_matrix(a)` is 3×3 and skew-symmetric, and maps a to 0 |
| TwinVec3.Cross | twin/vec3.py:139-144 | a × b is orthogonal to a and to b |
| TwinVec3.CrossMatrixIsCross | twin/vec3.py:139-144 | `cross_matrix(a)·b` is a × b, and `cross_matrix(a)·a` is 0 |
| TwinVec3.Clip | twin/vec3.py:212-214 | `np.clip` lands in [lower, upper] when lower ≤ upper, is the identity inside, and gives upper when upper < lower |
| TwinVec3.SaturateProperties | twin/vec3.py:212-214 | for lower ≤ upper, saturate lands in the box, is the identity inside it, and is idempotent |
| TwinVec3.Saturate | twin/vec3.py:212-214 | for lower ≤ upper the result lies in the box, and a vector inside it is unchanged |
| TwinVec3.Vec3.constructor | twin/vec3.py:8-27 | an object built from accepted arguments holds the constructed triple |
| TwinVec3.Vec3.SetX | twin/vec3.py:33-35 | the x setter overwrites component 0 and keeps the others |
| TwinVec3.Vec3.SetY | twin/vec3.py:41-43 | the y setter overwrites component 1 and keeps the others |
| TwinVec3.Vec3.SetZ | twin/vec3.py:49-51 | the z setter overwrites component 2 and keeps the others |
| TwinVec3.Vec3.InstanceSaturate | twin/vec3.py:216-218 | `_instance_saturate` stores the saturated array in the object and returns the object itself, which is inside the box when lower ≤ upper |

## Left out

- `fn_H` (model/solver.py:111-125) is the oracle `bias` of `Numerics`. Its
  closed form is a large trigonometric expression with no structure to prove.
- Neither `fn_U`, `fn_H1d` and `fn_U1d` (model/solver.py:127-204) nor
  `SolverOde` (model/solver.py:246-305) is modelled. They are closed-form
  force terms and adaptive floating-point integration behind scipy, and
  the contact time-stepper does not use them.
- sin and cos are the oracles `sin` and `cos`. Only sin² + cos² = 1 is
  assumed, and only where a lemma asks for it.
- `np.linalg.solve` and `solve_qp` are the oracles `linSolve` and `qp`,
  returning vectors of the right length. LCP complementarity depends on
  QP optimality and is not proved.
- `Solver.Shaped` makes these oracles total. Two failures are therefore
  outside the model. `solve_qp` may return None, and then `np.maximum`
  raises. `np.linalg.solve` raises when M is singular, at both of its
  calls.
- Floating point is modelled as real arithmetic. Rounding, NaN and
  infinities are outside the model. This includes a dt so small that the
  step count is huge, and numpy's divide-by-zero warnings in place of
  Python's exception.
- `SolverLcp.dynamics_constrained` aliases `v_plus` to `v_minus`, and
  `v_plus += …` updates that one array. `Solver.DynamicsConstrained`
  keeps the aliasing: `vPlus` and `vMinus` are the same array, and the
  update changes it in place. It reads `b_act` from a copy of the
  values taken before the update, which is the order of the source:
  `b_act` is computed before `v_plus += …`.
- `Solver.Solve`'s sample times are not those of its states whenever
  (t1 − t0)/dt is not a whole number. `SampleTimesOffGrid` states this
  and the model keeps the code's behaviour.
- Http.HttpBuffer.HttpEventHandler: requires that ON_DATA fits the buffer
  (`outputLen_ + data_len ≤ bufferSize_`). The source has no bounds check
  and overruns the buffer otherwise; a byte-level model of that overrun is
  not possible on a Dafny array.
- The logging in every file (`ESP_LOGx`) is not modelled. Neither are the
  `tag_` strings beyond being stored.
- `Firebase::PerformRequest`, the HTTP client, `esp_http_client_init` and
  cJSON are outside the model. Their outcomes (error, status, parsed
  reply) are parameters, and `Send`/`Read` return the request they would
  issue.
- `Firebase::SignInAnonymously`'s `!data` test is always false because the
  buffer pointer is never null. The parsed reply is a parameter, so the
  model has no such branch.
- `MPU9250::begin`, `writeReg`, `readRegs` (I2C transactions) and `readSI`
  (a float unit conversion) are not modelled. The register read's outcome
  is a parameter of `ReadRaw`.
- Mpu9250.MPU9250.ReadRaw: requires every map index to be below 3, as the
  header's comment on `AxisMap::idx` says. The source does not check this;
  a larger index would read outside `tmp`.
- `Vec3.rotate`, `rotate_inv`, `rotate_cam` and their in-place forms are
  trigonometric rotations and are not modelled. Neither are
  `__str__`/`__repr__`, `__iter__`, `__eq__` (`np.allclose`, a float
  tolerance) or `transpose`, which is the identity on a 1-D array.
- `__rmul__` and `__rmatmul__` are not modelled.
- Every ndarray operand or argument is a 1-D float array (`NdArray`
  holds a sequence of reals). Multi-dimensional arrays are outside the
  model. For one of them, `other[0]` would be a row rather than a
  number, and the constructor would raise TypeError on it. `__matmul__`'s
  ndarray branch is modelled for shape (3,) only.
- TwinVec3.Vec3.constructor: requires accepted arguments. The raising
  argument shapes are modelled by `TwinVec3.Construct` on values.

## Findings

| source | as written | input that shows it | evidently intended | confidence | as-written member | corrected member |
|---|---|---|---|---|---|---|
| twin/vec3.py:85-86 | `__rsub__` returns `self - other` | `0 - Vec3(1, 1, 1)` gives `Vec3(1, 1, 1)` | `other - self`, i.e. `Vec3(-1, -1, -1)` | not executed | TwinVec3.RSubComputesSelfMinusOther | TwinVec3.RSubCorrectedIsReflected |
| twin/vec3.py:97-99 | the Vec3 branch of `__matmul__` passes `other.array.transpose`, the bound method uncalled | `Vec3(1, 0, 0) @ Vec3(1, 0, 0)`: numpy refuses the method as an operand | the dot product `self.array @ other.array`, here 1.0 | not executed | TwinVec3.MatMulVec3Fails | TwinVec3.MatMulCorrectedIsDot |
| esw/src/firebase.cpp:43 | `host_[len - 1]` with `size_t len = strlen(host_)` | host `"https://"`: the cleaned host is empty, len is 0 and the index wraps to SIZE_MAX | treat an empty host as missing its '/' and store `"/"` | not executed | Firebase.AsWrittenReadsOutOfBounds | Firebase.NormalizedShape |
