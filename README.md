# ONVIF camera emulator and tools, modelled in Dafny

The repository emulates an ONVIF IP camera. It has two servers and two small clients.

- **The Python server** (`onvif_server_ws_auth.py`) answers SOAP 1.2 requests on three endpoints:
  - the device service;
  - the media service;
  - the PTZ service.

  It authenticates every request with a WS-Security UsernameToken, either PasswordDigest or PasswordText. Users come from a static table, and there is a 300-second freshness window on the `Created` time. It then routes the action named by the first child of the SOAP Body through a fixed table of operations. It answers 401 with a Sender fault, 400 for an unsupported action, or the chosen body. As written, its credential check tests the truth value of the Username and Password elements, so the usual text-only token is refused with 401 (see Findings). The model keeps that behaviour in `Dispatch` and gives the corrected endpoint as `DispatchIntended`.
- **The C++ server** (`onvif_server.cpp`) is a socket server. It picks its handler by searching the raw request text for an operation name. It wraps the chosen body in a SOAP envelope and sends it in an HTTP 200 response. Its profiles, addresses and ports come from the server object's fields.
- **The digest calculator** (`onvif_digest.py`) computes the UsernameToken password digest. This is Base64(SHA-1(nonce bytes ++ created ++ password)), as section 3.1 of the OASIS Web Services Security UsernameToken Profile 1.0 defines it. It also generates nonces.
- **The RTSP screenshot client** (`rtsp_screenshot.cpp`) parses its command line. It splices the user name and password into the stream URL before opening it.

The model is split into these modules:

| Module | What it holds |
|---|---|
| `WsSecurity` | The verifier, on a parsed element tree. |
| `SoapService` | The fault, the action extraction and the endpoints. |
| `DigestTool` | The calculator. |
| `OnvifServerCpp` | The C++ server: a `class OnvifServer` with the fields, the constructor, the profile loop and the request path. |
| `RtspScreenshotTool` | The client: a `class RtspScreenshot` and the argument loop. |

Supporting modules:

| Module | What it holds |
|---|---|
| `Base64` | Standard Base64 with padding, as `base64.b64encode` and `b64decode` use it. |
| `Bytes` | UTF-8. |
| `Decimal` | Decimal numerals. |
| `Text` | `find`, `in`, `split`, `replace`. |
| `Template` | f-strings and string concatenation, as literal parts with holes. |
| `XmlTree` | `Element.find('.//tag')` on an element tree. |

SHA-1, `datetime.fromisoformat`, the clock and `os.urandom` are parameters. The model knows only that a SHA-1 digest has 20 bytes.

## Model

| member | source | states |
|---|---|---|
| WsSecurity.CreatePasswordDigest | onvif_server_ws_auth.py:76-84 | A digest exists exactly when the nonce is valid Base64, and it is 28 characters long |
| WsSecurity.DigestIgnoresUsername | onvif_server_ws_auth.py:76-84 | The username argument has no influence on the digest |
| WsSecurity.DigestShape | onvif_server_ws_auth.py:79-84 | A digest is 27 Base64 alphabet characters followed by one `=` |
| WsSecurity.FreshnessBoundary | onvif_server_ws_auth.py:123-124 | The 300 s window is inclusive on both sides: exactly 300 s is fresh, and 1 µs more is not |
| WsSecurity.CheckDigest | onvif_server_ws_auth.py:115-132 | The digest branch accepts only the username it was given |
| WsSecurity.CheckParts | onvif_server_ws_auth.py:105-137 | An accepted token names, in its Username text, a user of the table, and that user is returned |
| WsSecurity.VerifyWsseCredentials | onvif_server_ws_auth.py:86-142 | No header rejects. An accepted token has a UsernameToken whose Username and Password elements are truthy, and its user is in the table |
| WsSecurity.VerifyWsseCredentialsIntended | onvif_server_ws_auth.py:86-142 | The same verifier with a presence guard: no header rejects, and every accepted user is in the table |
| WsSecurity.AuthenticateRequest | onvif_server_ws_auth.py:144-154 | A document that does not parse is rejected, and every accepted user is in the table. The verdict is that of the verifier as written |
| WsSecurity.AuthenticateRequestIntended | onvif_server_ws_auth.py:144-154 | The same with the verifier that has the presence guard: it accepts every request the version as written accepts, with the same user |
| WsSecurity.DigestPath | onvif_server_ws_auth.py:115-132 | On the digest path, a known user is accepted iff all of these hold: Created parses to an aware time within 300 s of now; the nonce decodes; the password equals Base64(SHA-1(nonce ++ Created ++ stored password)) |
| WsSecurity.PlaintextPath | onvif_server_ws_auth.py:135-137 | Off the digest path, a known user is accepted iff the Type mentions PasswordText or is empty, and the text equals the stored password |
| WsSecurity.UnknownUserRejected | onvif_server_ws_auth.py:106-110 | A user missing from the table, or a Username without text, is rejected |
| WsSecurity.OtherTypesRejected | onvif_server_ws_auth.py:115-137 | A non-empty Type that mentions neither PasswordDigest nor PasswordText is rejected |
| WsSecurity.GuardAgreement | onvif_server_ws_auth.py:102-103 | When both elements are truthy, the as-written and the intended verifier agree |
| WsSecurity.AsWrittenAcceptsLess | onvif_server_ws_auth.py:102-103 | Whatever the as-written verifier accepts, the intended one accepts with the same user |
| WsSecurity.LeafCredentialsRejected | onvif_server_ws_auth.py:102-103 | A header whose Username and Password elements carry only text (admin/admin123) is rejected as written and accepted as intended |
| SoapService.ParseSoapFault | onvif_server_ws_auth.py:156-170 | The code and the reason are read back from the fault document built from them |
| SoapService.ParseFaultSound | onvif_server_ws_auth.py:156-170 | Every text the fault reader accepts is exactly the fault document built from what it returns |
| SoapService.SoapFaultFrame | onvif_server_ws_auth.py:156-170 | The fault opens with the XML declaration and `soap:` + code, and closes the envelope |
| SoapService.AuthFaultContent | onvif_server_ws_auth.py:218-221 | The authentication fault carries code Sender and reason "Authentication failed" |
| SoapService.DropFirst | onvif_server_ws_auth.py:204 | Python's `[1:]`, including the empty string |
| SoapService.ParseSoapRequest | onvif_server_ws_auth.py:192-209 | There is no action iff there is no document, no Body, or a Body without children. Otherwise the element is the first Body child, and the action is the `}`-free tail of its tag |
| SoapService.SplitQName | onvif_server_ws_auth.py:203-204 | `{ns}local` splits back into `local` and `ns` |
| SoapService.ParseQualifiedAction | onvif_server_ws_auth.py:192-209 | A first Body child tagged `{ns}local` gives the action `local` in namespace `ns` |
| SoapService.ParseBareAction | onvif_server_ws_auth.py:203-205 | An unqualified first Body child is the action itself, with an empty namespace |
| SoapService.MediaProfilesContent | onvif_server_ws_auth.py:36-62 | The profile table holds Profile_1 and then Profile_2, and only Profile_1 has an audio encoder |
| SoapService.ProfilesXmlAppend | onvif_server_ws_auth.py:363-409 | The profile list of a concatenation is the concatenation of the lists |
| SoapService.VideoXmlShape | onvif_server_ws_auth.py:366-390 | The video part opens with the profile token and carries the name and the encoding |
| SoapService.ProfileXmlShape | onvif_server_ws_auth.py:366-404 | A block opens with its token, carries the name and the encoding, has the audio part iff the profile has audio, and closes `trt:Profiles` |
| SoapService.RenderProfilesXml | onvif_server_ws_auth.py:363-404 | The loop builds the concatenation of the profile blocks, in order |
| SoapService.StreamProfileToken | onvif_server_ws_auth.py:411-421 | The token is the requested one when it is non-empty and a known profile, and Profile_1 otherwise. It is always a known profile |
| SoapService.StreamTokenDefault | onvif_server_ws_auth.py:420-421 | A request with no token, or an unknown one, streams Profile_1 |
| SoapService.StreamUri | onvif_server_ws_auth.py:423 | The URI is `rtsp://localhost:554/stream/` followed by exactly the token |
| SoapService.StatusCode | onvif_server_ws_auth.py:218-221 | Status 401 iff unauthorized, 400 iff the action is unsupported, 500 iff a body was chosen (because `create_soap_response` raises) |
| SoapService.Handler | onvif_server_ws_auth.py:227-341 | The `if`/`elif` chains of the three endpoints (lines 227-341, 363-445, 470-555): a body is given iff the action is one of the operations the service advertises |
| SoapService.Route | onvif_server_ws_auth.py:361-448 | Dispatched iff the action is in the service's table, with that action. Otherwise 400 with "Unsupported action: " and the action, or None |
| SoapService.Endpoint | onvif_server_ws_auth.py:218-221 | 401 iff there is no authenticated user. A dispatched action was parsed from the request and is in the table. A 400 names the parsed action |
| SoapService.Dispatch | onvif_server_ws_auth.py:211-345 | The endpoint as written: 401 iff the authentication as written fails. A dispatched action was parsed from the request and is in the table. A 400 names the parsed action |
| SoapService.DispatchIntended | onvif_server_ws_auth.py:211-345 | The endpoint with the presence guard: 401 iff that authentication fails. It answers every request that the endpoint as written does not refuse exactly as that endpoint does, and it refuses only requests that endpoint refuses |
| SoapService.DispatchTableClosed | onvif_server_ws_auth.py:613-617 | A request that passes the authentication as written is dispatched through the literal `elif` chains iff its action is among the operations the service advertises. It never gets 401 |
| SoapService.UnauthenticatedRejected | onvif_server_ws_auth.py:461-464 | A request that fails authentication gets 401 and the Sender fault, whatever its action |
| SoapService.LeafRequestSecurity | onvif_server_ws_auth.py:148-152 | The `.//wsse:Security` search of the usual request finds its admin/admin123 token |
| SoapService.LeafRequestBody | onvif_server_ws_auth.py:196-200 | The `.//soap:Body` search of the usual request finds its Body, past the header |
| SoapService.MediaActionTag | onvif_server_ws_auth.py:203-204 | A media action tag `{media namespace}action` gives back the action |
| SoapService.LeafRequestAction | onvif_server_ws_auth.py:192-209 | The usual request names its action |
| SoapService.LeafRequestUnauthorized | onvif_server_ws_auth.py:218-221 | Every endpoint as written answers 401 to the usual request carrying admin's right plaintext password in a text-only UsernameToken |
| SoapService.LeafRequestAuthenticated | onvif_server_ws_auth.py:144-154 | With the presence guard, the same request authenticates as admin |
| SoapService.LeafRequestIntended | onvif_server_ws_auth.py:347-409 | With the presence guard, the usual GetProfiles request gets the profile list |
| SoapService.MediaStreamUri | onvif_server_ws_auth.py:411-433 | GetStreamUri answers with the stream of the requested profile, or of Profile_1 |
| SoapService.MediaProfilesRoute | onvif_server_ws_auth.py:363-409 | GetProfiles answers with the profile list |
| SoapService.MediaVideoSourcesRoute | onvif_server_ws_auth.py:435-445 | GetVideoSources answers with its fixed body |
| SoapService.MediaOtherRoute | onvif_server_ws_auth.py:447-448 | Any other media action, or none, gets 400 and names the action |
| SoapService.MediaRoute | onvif_server_ws_auth.py:361-448 | The in-place media branch reaches the outcome Route specifies and the body text BodyXml specifies |
| SoapService.MediaService | onvif_server_ws_auth.py:347-451 | The media endpoint's outcome is that of the endpoint as written, Dispatch(Media), and its body text is the rendered body |
| DigestTool.ComputeOnvifDigest | onvif_digest.py:15-48 | Succeeds iff the nonce decodes. The digest decodes to SHA-1(nonce bytes ++ UTF-8 date ++ UTF-8 password) |
| DigestTool.SameAsServer | onvif_digest.py:27-43 | The calculator and the server's digest agree on every input |
| DigestTool.DigestLength | onvif_digest.py:39-43 | A digest is 28 characters: 27 alphabet characters and one `=` |
| DigestTool.CalculatorTokenAccepted | onvif_digest.py:15-48 | A fresh PasswordDigest token carrying the calculator's digest of a known user's password passes the server's password check (the part of the verifier after the presence guard) |
| DigestTool.CalculatorHeaderAccepted | onvif_server_ws_auth.py:86-142 | A Security header around such a token is accepted by the verifier with the presence guard. The verifier as written accepts it iff its Username and Password elements are truthy |
| DigestTool.GenerateNonce | onvif_digest.py:61-71 | A nonce is 24 characters: 22 alphabet characters and `==`. It decodes back to the 16 random bytes |
| DigestTool.GeneratedNonceDecodes | onvif_digest.py:61-71 | The calculator accepts every generated nonce |
| DigestTool.SampleNonceDecodes | onvif_digest.py:83 | The sample nonce decodes to the ASCII bytes of `1234567890123456` |
| DigestTool.SampleDigestComputed | onvif_digest.py:83-87 | The sample digest is computed: the sample nonce is valid Base64 |
| DigestTool.InteractiveDigest | onvif_digest.py:111-122 | "All fields are required" iff a field is empty. A digest is computed iff all are non-empty and the nonce decodes, and it is the calculator's digest |
| Base64.DecodeEncode | onvif_digest.py:29 | `b64decode(b64encode(b)) == b` for every byte string |
| Base64.EncodeDecode | onvif_server_ws_auth.py:79 | Only canonical text decodes: it re-encodes to itself |
| Base64.EncodeShape | onvif_digest.py:42 | An encoding is alphabet characters followed by exactly the padding |
| Base64.EncodeAppend | onvif_digest.py:42 | Whole groups of three bytes encode independently of what follows them |
| Base64.EncodeQuantum | onvif_digest.py:42 | A group whose sextets are the alphabet positions of four characters encodes to those characters |
| Decimal.ParseNatToString | onvif_server.cpp:337 | A number's decimal text parses back to the number |
| OnvifServerCpp.EnvelopeRoundTrip | onvif_server.cpp:98-106 | The body is read back from its envelope |
| OnvifServerCpp.EnvelopeBodySound | onvif_server.cpp:98-106 | Only envelopes have a body: the body read back wraps to exactly the original text |
| OnvifServerCpp.RoutesSpelledOut | onvif_server.cpp:291-308 | The search order of the operation names and their handlers |
| OnvifServerCpp.RouteFirstMatch | onvif_server.cpp:288-323 | Handler `i` is chosen iff its name occurs in the request and no earlier name does |
| OnvifServerCpp.RouteNoMatch | onvif_server.cpp:288-320 | The not-implemented fault is chosen iff no operation name occurs |
| OnvifServerCpp.EarlierNameWins | onvif_server.cpp:297-302 | A request naming both GetProfiles and GetStreamUri is answered as GetProfiles |
| OnvifServerCpp.DeviceInformationReported | onvif_server.cpp:108-117 | The body reports the manufacturer, the model, the firmware version, the serial number and the UUID |
| OnvifServerCpp.PortRoundTrip | onvif_server.cpp:123 | The digits between the origin and the next `/` are the port the URL was built with |
| OnvifServerCpp.CapabilitiesAdvertise | onvif_server.cpp:119-167 | The capabilities carry the device, media and PTZ addresses on the server's port |
| OnvifServerCpp.XAddrPort | onvif_server.cpp:123 | Every advertised address is on the server's own port |
| OnvifServerCpp.StreamUriOnNextPort | onvif_server.cpp:206-216 | The stream URI is announced on port + 1 |
| OnvifServerCpp.NotImplementedFaultContent | onvif_server.cpp:309-319 | The fallback fault has code SOAP-ENV:Receiver and reason "Method not implemented" |
| OnvifServerCpp.ProfileBlockShape | onvif_server.cpp:172-199 | A profile element opens with its token, carries the name, the encoder token and the bitrate, and closes `trt:Profiles` |
| OnvifServerCpp.ProfileListed | onvif_server.cpp:169-204 | Each profile's element sits between those of its neighbours, and the list names its token |
| OnvifServerCpp.GetProfilesBodyRoundTrip | onvif_server.cpp:202-203 | The profile list is read back from the GetProfiles body |
| OnvifServerCpp.ReadHttpResponse | onvif_server.cpp:334-339 | Content-Length is the length of the SOAP text, and the payload is exactly that text. The length counts characters. `std::string::length` counts bytes, and the two agree because every response is ASCII |
| OnvifServerCpp.AlwaysStatusOk | onvif_server.cpp:334-339 | Every response, faults included, starts `HTTP/1.1 200 OK` |
| OnvifServerCpp.RequestText | onvif_server.cpp:330 | The request is the longest NUL-free prefix of what was read |
| OnvifServerCpp.OnvifServer.constructor | onvif_server.cpp:48-58 | A stopped server on the port, with the sample identity and the profiles [main stream, sub stream] |
| OnvifServerCpp.OnvifServer.InitializeMediaProfiles | onvif_server.cpp:65-88 | Appends the 1920x1080 main stream and then the 640x480 sub stream, and nothing else changes |
| OnvifServerCpp.OnvifServer.HandleGetProfiles | onvif_server.cpp:169-204 | The loop builds one element per profile, in order, inside the envelope |
| OnvifServerCpp.OnvifServer.ProcessRequest | onvif_server.cpp:288-323 | The response is the envelope around the body of the handler the request text selects |
| OnvifServerCpp.OnvifServer.HandleClient | onvif_server.cpp:325-347 | An empty read sends nothing. Otherwise it sends the HTTP response around the envelope for the NUL-terminated request |
| RtspScreenshotTool.UserInfoRoundTrip | rtsp_screenshot.cpp:24-30 | With a user and password free of `@` and a URL with `://`, the spliced URL splits back into `user:pass` and the original URL |
| RtspScreenshotTool.CredentialsNeedScheme | rtsp_screenshot.cpp:24-35 | With credentials, the URL is refused iff it has no `://` |
| RtspScreenshotTool.UrlUnchangedWithoutCredentials | rtsp_screenshot.cpp:21-38 | Without both a user and a password, the URL is opened as given |
| RtspScreenshotTool.RtspScreenshot.constructor | rtsp_screenshot.cpp:15 | A client for the URL with empty credentials |
| RtspScreenshotTool.RtspScreenshot.WithCredentials | rtsp_screenshot.cpp:17-18 | A client for the URL with the given credentials |
| RtspScreenshotTool.RtspScreenshot.Connect | rtsp_screenshot.cpp:20-47 | Opens the spliced URL, and succeeds iff there is a URL and the stream opens |
| RtspScreenshotTool.ScanAppend | rtsp_screenshot.cpp:166-177 | Reading a complete prefix and then the rest is the same as reading everything |
| RtspScreenshotTool.LaterUserWins | rtsp_screenshot.cpp:168-169 | A later `--user` overrides an earlier one |
| RtspScreenshotTool.TrailingFlagIgnored | rtsp_screenshot.cpp:168-173 | A value flag with no value after it changes nothing |
| RtspScreenshotTool.ConsumedValueSkipped | rtsp_screenshot.cpp:168-169 | A flag's value is consumed, even when it looks like a flag |
| RtspScreenshotTool.UnmentionedOptionsKept | rtsp_screenshot.cpp:166-177 | Without `--output` anywhere in the arguments, the output file and the URL are kept. The premise also excludes `--output` as another flag's value |
| RtspScreenshotTool.ParseArgs | rtsp_screenshot.cpp:139-177 | Fewer than two arguments fail. Otherwise the result is the scan of `argv[2..]` from the defaults for `argv[1]` |
| RtspScreenshotTool.CommandLineDefaults | rtsp_screenshot.cpp:141-164 | The URL is `argv[1]`, and the output defaults to `screenshot.jpg` |

## Left out

- Sockets and threads are not modelled: `start`, `run`, `stop`, the accept loop, the mutex and the FastAPI server itself.
- `handleClient`'s read is a parameter. A failed read (-1) is treated like an empty one.
- `getCurrentTime` (onvif_server.cpp:90-96) is not modelled, because its value is never used.
- The Python date-and-time response is modelled as the clock reading it reports. The remaining fixed Python response texts are named by their action (`Body.Fixed`), not spelled out. The device-information and capabilities texts of the Python server are among them.
- After a successful dispatch, `create_soap_response` reads an undefined name and raises. The model stops at the chosen body and status 500; it builds no success envelope.
- The C++ `port + 1` in the stream URI uses `int`. Its signed overflow at the largest port is not modelled.
- `audio_encoder_token` of the C++ profiles is never rendered by the source, and the model does not render it either.
- DigestTool.SampleDigestComputed: the value of the sample digest (onvif_digest.py:85) is not computed, because SHA-1 is a parameter. The decoding of the sample nonce is proved.
- `generate_current_timestamp` is not modelled: it is the clock.
- The calculator's `input`, `strip` and `print` are not modelled; `InteractiveDigest` receives the stripped texts.
- The text of the exception messages is not modelled: a failure is `ValueError` or None.
- Base64.Decode accepts only canonical padded text. Python's non-strict `b64decode` agrees with it on canonical text but also accepts more:
  - it discards characters outside the alphabet;
  - it ignores non-zero pad bits (`QR==` gives `A`);
  - it stops after the first padded quantum (`QQ==QQ==` gives `A`);
  - it skips a `=` that comes before a data character (`=QUJD` gives `ABC`).

  Nonces of these forms are rejected by the model, where the server and the calculator accept them.
- The request body is decoded as UTF-8 (onvif_server_ws_auth.py:215, 351, 458). A body that is not UTF-8 raises there, and the server answers 500 before authenticating. The model starts from the decoded text.
- OnvifServerCpp.ReadHttpResponse: Content-Length counts characters, not UTF-8 bytes. The two are equal for every response the server builds, since all are ASCII.
- RtspScreenshotTool.UnmentionedOptionsKept: the premise bans `--output` anywhere in the arguments, also where it would be consumed as the value of another flag.
- `captureScreenshot`, `displayStream` and `disconnect` of the RTSP client are not modelled: they are OpenCV I/O. `Connect` receives whether the stream opens as the parameter `opens`.
- RtspScreenshotTool.UrlUnchangedWithoutCredentials is a direct consequence of the definition. The splice itself is covered by UserInfoRoundTrip.
- OnvifServerCpp.RoutesSpelledOut only names the entries of the route table for the lemmas about it.
- The helper lemmas without a row (in Text, Template, Base64, XmlTree, and the IndexOf helpers in RtspScreenshotTool) support the properties above.

## Findings

| source | as written | input that shows it | evidently intended | confidence | as-written member | corrected member |
|---|---|---|---|---|---|---|
| onvif_server_ws_auth.py:102 | `all([username_elem, password_elem])` tests the truth value of the elements. An ElementTree element without children is false. | A Security header whose Username `admin` and Password `admin123` elements carry only text (`LeafToken("admin", "admin123")`) | Test that both elements were found (`is not None`), so the usual UsernameToken reaches the password check | not executed | WsSecurity.VerifyWsseCredentials, WsSecurity.LeafCredentialsRejected, SoapService.LeafRequestUnauthorized | WsSecurity.VerifyWsseCredentialsIntended, WsSecurity.AsWrittenAcceptsLess, WsSecurity.AuthenticateRequestIntended, SoapService.DispatchIntended, SoapService.LeafRequestIntended |
