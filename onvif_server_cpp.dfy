/**
 * The C++ ONVIF server: a device object holding its identity fields and media profiles, the SOAP
 * envelope it wraps every answer in, the dispatch of a request to one of six handlers by
 * substring search, the handlers' response bodies, and the HTTP response a client is sent.
 * Sockets, threads and the console are left out; a client connection is the text it delivered.
 */
module OnvifServerCpp {
  import opened Wrappers
  import opened Text
  import opened Decimal
  import opened Template

  // ---------------------------------------------------------------- device state

  /** One entry of the device's `media_profiles`. */
  datatype MediaProfile = MediaProfile(
    token: string,
    name: string,
    videoEncoderToken: string,
    audioEncoderToken: string,
    width: int,
    height: int,
    framerate: int,
    bitrate: int)

  const PROFILE_1 := MediaProfile("Profile_1", "MainStream", "VideoEncoder_1", "AudioEncoder_1", 1920, 1080, 30, 4000000)
  const PROFILE_2 := MediaProfile("Profile_2", "SubStream", "VideoEncoder_2", "AudioEncoder_2", 640, 480, 15, 1000000)

  /** The port the constructor uses when it is given none. */
  const DEFAULT_PORT := 8080

  // ---------------------------------------------------------------- the envelope

  const ENVELOPE_TEXT: seq<string> := [
    "<?xml version=\"1.0\" encoding=\"UTF-8\"?>\n" +
    "<SOAP-ENV:Envelope xmlns:SOAP-ENV=\"http://" +
    "www.w3.org/2003/05/soap-envelope\" " +
    "xmlns:tds=\"http://www.onvif.org/ver10/device/" +
    "wsdl\" xmlns:trt=\"http://www.onvif.org/ver10/" +
    "media/wsdl\" xmlns:tptz=\"http://" +
    "www.onvif.org/ver20/ptz/wsdl\">\n" +
    "<SOAP-ENV:Body>\n",
    "</SOAP-ENV:Body>\n" +
    "</SOAP-ENV:Envelope>"
  ]

  /** A SOAP 1.2 envelope declaring the device, media and PTZ namespaces around `body`. */
  function GenerateSoapEnvelope(body: string): string {
    Fill(ENVELOPE_TEXT, [body])
  }

  /** The body of an envelope; None for text that is not one. */
  function EnvelopeBody(xml: string): Option<string> {
    Unfill1(ENVELOPE_TEXT, xml)
  }

  /** Every body is recovered from its envelope, so different bodies give different responses. */
  lemma EnvelopeRoundTrip(body: string)
    ensures EnvelopeBody(GenerateSoapEnvelope(body)) == Some(body)
  {
    Unfill1Fill(ENVELOPE_TEXT, body);
  }

  /** Only envelopes have a body: the body read back wraps to exactly the text it came from. */
  lemma EnvelopeBodySound(xml: string)
    requires EnvelopeBody(xml).Some?
    ensures GenerateSoapEnvelope(EnvelopeBody(xml).value) == xml
  {
    Fill1Unfill(ENVELOPE_TEXT, xml);
  }

  // ---------------------------------------------------------------- dispatch

  /** The handler `processRequest` picks. */
  datatype Handler =
    | DeviceInformation
    | Capabilities
    | Profiles
    | StreamUri
    | SystemDateAndTime
    | PtzConfigurations
    | NotImplemented

  /** The operation names `processRequest` searches for, in the order it searches. */
  const ROUTES: seq<(string, Handler)> := [
    ("GetDeviceInformation", DeviceInformation),
    ("GetCapabilities", Capabilities),
    ("GetProfiles", Profiles),
    ("GetStreamUri", StreamUri),
    ("GetSystemDateAndTime", SystemDateAndTime),
    ("GetConfigurations", PtzConfigurations)
  ]

  /**
   * The handler for a request: the first operation name of ROUTES that occurs anywhere in the
   * request text picks it; a request naming none is not implemented.
   */
  function Route(request: string): Handler {
    if Contains(request, "GetDeviceInformation") then DeviceInformation
    else if Contains(request, "GetCapabilities") then Capabilities
    else if Contains(request, "GetProfiles") then Profiles
    else if Contains(request, "GetStreamUri") then StreamUri
    else if Contains(request, "GetSystemDateAndTime") then SystemDateAndTime
    else if Contains(request, "GetConfigurations") then PtzConfigurations
    else NotImplemented
  }

  lemma RoutesSpelledOut()
    ensures ROUTES[0] == ("GetDeviceInformation", DeviceInformation)
    ensures ROUTES[1] == ("GetCapabilities", Capabilities)
    ensures ROUTES[2] == ("GetProfiles", Profiles)
    ensures ROUTES[3] == ("GetStreamUri", StreamUri)
    ensures ROUTES[4] == ("GetSystemDateAndTime", SystemDateAndTime)
    ensures ROUTES[5] == ("GetConfigurations", PtzConfigurations)
  {
  }

  /** Entry `i` of ROUTES is chosen exactly when its name occurs and no earlier name does. */
  lemma RouteFirstMatch(request: string, i: nat)
    requires i < |ROUTES|
    ensures Route(request) == ROUTES[i].1 <==>
      Contains(request, ROUTES[i].0) && forall j :: 0 <= j < i ==> !Contains(request, ROUTES[j].0)
  {
    RoutesSpelledOut();
  }

  /** The request is not implemented exactly when it names none of the operations. */
  lemma RouteNoMatch(request: string)
    ensures Route(request) == NotImplemented <==> forall i :: 0 <= i < |ROUTES| ==> !Contains(request, ROUTES[i].0)
  {
    RoutesSpelledOut();
  }

  /**
   * The search is for a substring, not an element: a request whose text names an earlier
   * operation anywhere, in any element, is answered by that earlier operation's handler.
   */
  lemma EarlierNameWins(request: string)
    requires Contains(request, "GetProfiles") && Contains(request, "GetStreamUri")
    requires !Contains(request, "GetDeviceInformation") && !Contains(request, "GetCapabilities")
    ensures Route(request) == Profiles
  {
    assert ROUTES[2].0 == "GetProfiles";
  }

  // ---------------------------------------------------------------- response bodies

  const DEVICE_INFORMATION_TEXT: seq<string> := [
    "<tds:GetDeviceInformationResponse>\n" +
    "<tds:Manufacturer>",
    "</tds:Manufacturer>\n" +
    "<tds:Model>",
    "</tds:Model>\n" +
    "<tds:FirmwareVersion>",
    "</tds:FirmwareVersion>\n" +
    "<tds:SerialNumber>",
    "</tds:SerialNumber>\n" +
    "<tds:HardwareId>",
    "</tds:HardwareId>\n" +
    "</tds:GetDeviceInformationResponse>"
  ]

  /** The device information body: the device's identity, its UUID reported as hardware id. */
  function DeviceInformationBody(manufacturer: string, model: string, firmwareVersion: string,
                                 serialNumber: string, deviceUuid: string): string
  {
    Fill(DEVICE_INFORMATION_TEXT, [manufacturer, model, firmwareVersion, serialNumber, deviceUuid])
  }

  /** Each identity field of the device is reported. */
  lemma DeviceInformationReported(manufacturer: string, model: string, firmwareVersion: string,
                                  serialNumber: string, deviceUuid: string)
    ensures var body := DeviceInformationBody(manufacturer, model, firmwareVersion, serialNumber, deviceUuid);
      Contains(body, manufacturer) && Contains(body, model) && Contains(body, firmwareVersion) &&
      Contains(body, serialNumber) && Contains(body, deviceUuid)
  {
    var holes := [manufacturer, model, firmwareVersion, serialNumber, deviceUuid];
    FillContains(DEVICE_INFORMATION_TEXT, holes, 0);
    FillContains(DEVICE_INFORMATION_TEXT, holes, 1);
    FillContains(DEVICE_INFORMATION_TEXT, holes, 2);
    FillContains(DEVICE_INFORMATION_TEXT, holes, 3);
    FillContains(DEVICE_INFORMATION_TEXT, holes, 4);
  }

  /** The service address the capabilities advertise for `service` on `port`. */
  function XAddr(port: int, service: string): string {
    "http://localhost:" + IntToString(port) + "/onvif/" + service
  }

  /** The RTSP address of the stream on `port`. */
  function RtspUri(port: int): string {
    "rtsp://localhost:" + IntToString(port) + "/stream1"
  }

  /** The port number of a URL that opens with `origin`: the digits up to the next `/`. */
  function PortAfter(origin: string, url: string): Option<nat> {
    if IsPrefix(origin, url) then ParseNat(BeforeFirst(url[|origin|..], '/')) else None
  }

  /** The number between `origin` and the next `/` is the port the URL was built with. */
  lemma PortRoundTrip(origin: string, port: nat, path: string)
    requires |path| > 0 && path[0] == '/'
    ensures PortAfter(origin, origin + IntToString(port) + path) == Some(port)
  {
    var digits := NatToString(port);
    var url := origin + digits + path;
    SelfPrefix(origin, digits + path);
    assert url == origin + (digits + path);
    assert url[|origin|..] == digits + path;
    assert '/' !in digits by {
      forall i | 0 <= i < |digits| ensures digits[i] != '/' {
        assert IsDigit(digits[i]);
      }
    }
    assert digits + path == digits + ['/'] + path[1..];
    BeforeFirstJoin(digits, path[1..], '/');
    ParseNatToString(port);
  }

  const CAPABILITIES_TEXT: seq<string> := [
    "<tds:GetCapabilitiesResponse>\n" +
    "<tds:Capabilities>\n" +
    "<tds:Device>\n" +
    "<tds:XAddr>",
    "</tds:XAddr>\n" +
    "<tds:Network>\n" +
    "<tds:IPFilter>false</tds:IPFilter>\n" +
    "<tds:ZeroConfiguration>false</" +
    "tds:ZeroConfiguration>\n" +
    "<tds:IPVersion6>false</tds:IPVersion6>\n" +
    "<tds:DynDNS>false</tds:DynDNS>\n" +
    "</tds:Network>\n" +
    "<tds:System>\n" +
    "<tds:DiscoveryResolve>false</" +
    "tds:DiscoveryResolve>\n" +
    "<tds:DiscoveryBye>false</tds:DiscoveryBye>\n" +
    "<tds:RemoteDiscovery>false</" +
    "tds:RemoteDiscovery>\n" +
    "<tds:SystemBackup>false</tds:SystemBackup>\n" +
    "<tds:SystemLogging>false</tds:SystemLogging>\n" +
    "<tds:FirmwareUpgrade>false</" +
    "tds:FirmwareUpgrade>\n" +
    "</tds:System>\n" +
    "<tds:IO>\n" +
    "<tds:InputConnectors>0</tds:InputConnectors>\n" +
    "<tds:RelayOutputs>0</tds:RelayOutputs>\n" +
    "</tds:IO>\n" +
    "<tds:Security>\n" +
    "<tds:TLS1.1>false</tds:TLS1.1>\n" +
    "<tds:TLS1.2>true</tds:TLS1.2>\n" +
    "<tds:OnboardKeyGeneration>false</" +
    "tds:OnboardKeyGeneration>\n" +
    "<tds:AccessPolicyConfig>false</" +
    "tds:AccessPolicyConfig>\n" +
    "<tds:X.509Token>false</tds:X.509Token>\n" +
    "<tds:SAMLToken>false</tds:SAMLToken>\n" +
    "<tds:KerberosToken>false</tds:KerberosToken>\n" +
    "<tds:RELToken>false</tds:RELToken>\n" +
    "</tds:Security>\n" +
    "</tds:Device>\n" +
    "<tds:Media>\n" +
    "<tds:XAddr>",
    "</tds:XAddr>\n" +
    "<tds:StreamingCapabilities>\n" +
    "<tds:RTPMulticast>false</tds:RTPMulticast>\n" +
    "<tds:RTP_TCP>true</tds:RTP_TCP>\n" +
    "<tds:RTP_RTSP_TCP>true</tds:RTP_RTSP_TCP>\n" +
    "</tds:StreamingCapabilities>\n" +
    "</tds:Media>\n" +
    "<tds:PTZ>\n" +
    "<tds:XAddr>",
    "</tds:XAddr>\n" +
    "</tds:PTZ>\n" +
    "</tds:Capabilities>\n" +
    "</tds:GetCapabilitiesResponse>"
  ]

  /** The capabilities body: the device, media and PTZ services, all on the server's own port. */
  function CapabilitiesBody(port: int): string {
    Fill(CAPABILITIES_TEXT, [XAddr(port, "device_service"), XAddr(port, "media_service"), XAddr(port, "ptz_service")])
  }

  /** The capabilities advertise the device, media and PTZ service addresses. */
  lemma CapabilitiesAdvertise(port: int)
    ensures Contains(CapabilitiesBody(port), XAddr(port, "device_service"))
    ensures Contains(CapabilitiesBody(port), XAddr(port, "media_service"))
    ensures Contains(CapabilitiesBody(port), XAddr(port, "ptz_service"))
  {
    var holes := [XAddr(port, "device_service"), XAddr(port, "media_service"), XAddr(port, "ptz_service")];
    FillContains(CAPABILITIES_TEXT, holes, 0);
    FillContains(CAPABILITIES_TEXT, holes, 1);
    FillContains(CAPABILITIES_TEXT, holes, 2);
  }

  /** Every advertised service address is on the port the server listens on. */
  lemma XAddrPort(port: nat, service: string)
    ensures PortAfter("http://localhost:", XAddr(port, service)) == Some(port)
  {
    var path := "/onvif/" + service;
    assert XAddr(port, service) == "http://localhost:" + IntToString(port) + path;
    PortRoundTrip("http://localhost:", port, path);
  }

  const STREAM_URI_TEXT: seq<string> := [
    "<trt:GetStreamUriResponse>\n" +
    "<trt:MediaUri>\n" +
    "<trt:Uri>",
    "</trt:Uri>\n" +
    "<trt:InvalidAfterConnect>false</" +
    "trt:InvalidAfterConnect>\n" +
    "<trt:InvalidAfterReboot>false</" +
    "trt:InvalidAfterReboot>\n" +
    "<trt:Timeout>PT60S</trt:Timeout>\n" +
    "</trt:MediaUri>\n" +
    "</trt:GetStreamUriResponse>"
  ]

  /** The stream URI body: the RTSP stream is announced on the port after the server's own. */
  function StreamUriBody(port: int): string {
    Fill(STREAM_URI_TEXT, [RtspUri(port + 1)])
  }

  /** The announced stream lives on `port + 1`, whatever profile was asked for. */
  lemma StreamUriOnNextPort(port: int)
    requires port + 1 >= 0
    ensures Contains(StreamUriBody(port), RtspUri(port + 1))
    ensures PortAfter("rtsp://localhost:", RtspUri(port + 1)) == Some(port + 1)
  {
    FillContains(STREAM_URI_TEXT, [RtspUri(port + 1)], 0);
    PortRoundTrip("rtsp://localhost:", port + 1, "/stream1");
  }

  /** The system date and time body: a fixed manual clock at 2024-01-01 12:00:00 UTC. */
  const SYSTEM_DATE_AND_TIME_BODY :=
    "<tds:GetSystemDateAndTimeResponse>\n" +
    "<tds:SystemDateAndTime>\n" +
    "<tds:DateTimeType>Manual</tds:DateTimeType>\n" +
    "<tds:DaylightSavings>false</" +
    "tds:DaylightSavings>\n" +
    "<tds:TimeZone>\n" +
    "<tds:TZ>UTC</tds:TZ>\n" +
    "</tds:TimeZone>\n" +
    "<tds:UTCDateTime>\n" +
    "<tds:Time>\n" +
    "<tds:Hour>12</tds:Hour>\n" +
    "<tds:Minute>0</tds:Minute>\n" +
    "<tds:Second>0</tds:Second>\n" +
    "</tds:Time>\n" +
    "<tds:Date>\n" +
    "<tds:Year>2024</tds:Year>\n" +
    "<tds:Month>1</tds:Month>\n" +
    "<tds:Day>1</tds:Day>\n" +
    "</tds:Date>\n" +
    "</tds:UTCDateTime>\n" +
    "</tds:SystemDateAndTime>\n" +
    "</tds:GetSystemDateAndTimeResponse>"

  /** The PTZ configurations body: one fixed configuration with generic spaces and limits. */
  const PTZ_CONFIGURATIONS_BODY :=
    "<tptz:GetConfigurationsResponse>\n" +
    "<tptz:PTZConfiguration token=\"PTZConfig_1\">" +
    "\n" +
    "<tptz:Name>PTZ Configuration</tptz:Name>\n" +
    "<tptz:UseCount>1</tptz:UseCount>\n" +
    "<tptz:NodeToken>PTZNode_1</tptz:NodeToken>\n" +
    "<tptz:DefaultAbsolutePantTiltPositionSpace>" +
    "http://www.onvif.org/ver10/tptz/PanTiltSpaces/" +
    "PositionGenericSpace</" +
    "tptz:DefaultAbsolutePantTiltPositionSpace>\n" +
    "<tptz:DefaultAbsoluteZoomPositionSpace>http://" +
    "www.onvif.org/ver10/tptz/ZoomSpaces/" +
    "PositionGenericSpace</" +
    "tptz:DefaultAbsoluteZoomPositionSpace>\n" +
    "<tptz:DefaultRelativePanTiltTranslationSpace>" +
    "http://www.onvif.org/ver10/tptz/PanTiltSpaces/" +
    "TranslationGenericSpace</" +
    "tptz:DefaultRelativePanTiltTranslationSpace>\n" +
    "<tptz:DefaultRelativeZoomTranslationSpace>" +
    "http://www.onvif.org/ver10/tptz/ZoomSpaces/" +
    "TranslationGenericSpace</" +
    "tptz:DefaultRelativeZoomTranslationSpace>\n" +
    "<tptz:DefaultContinuousPanTiltVelocitySpace>" +
    "http://www.onvif.org/ver10/tptz/PanTiltSpaces/" +
    "VelocityGenericSpace</" +
    "tptz:DefaultContinuousPanTiltVelocitySpace>\n" +
    "<tptz:DefaultContinuousZoomVelocitySpace>" +
    "http://www.onvif.org/ver10/tptz/ZoomSpaces/" +
    "VelocityGenericSpace</" +
    "tptz:DefaultContinuousZoomVelocitySpace>\n" +
    "<tptz:DefaultPTZSpeed>\n" +
    "<tptz:PanTilt x=\"1.0\" y=\"1.0\" " +
    "space=\"http://www.onvif.org/ver10/tptz/" +
    "PanTiltSpaces/GenericSpeedSpace\"/>\n" +
    "<tptz:Zoom x=\"1.0\" space=\"http://" +
    "www.onvif.org/ver10/tptz/ZoomSpaces/" +
    "ZoomGenericSpeedSpace\"/>\n" +
    "</tptz:DefaultPTZSpeed>\n" +
    "<tptz:DefaultPTZTimeout>PT5S</" +
    "tptz:DefaultPTZTimeout>\n" +
    "<tptz:PanTiltLimits>\n" +
    "<tptz:Range>\n" +
    "<tptz:URI>http://www.onvif.org/ver10/tptz/" +
    "PanTiltSpaces/PositionGenericSpace</tptz:URI>" +
    "\n" +
    "<tptz:XRange>\n" +
    "<tptz:Min>-1.0</tptz:Min>\n" +
    "<tptz:Max>1.0</tptz:Max>\n" +
    "</tptz:XRange>\n" +
    "<tptz:YRange>\n" +
    "<tptz:Min>-1.0</tptz:Min>\n" +
    "<tptz:Max>1.0</tptz:Max>\n" +
    "</tptz:YRange>\n" +
    "</tptz:Range>\n" +
    "</tptz:PanTiltLimits>\n" +
    "<tptz:ZoomLimits>\n" +
    "<tptz:Range>\n" +
    "<tptz:URI>http://www.onvif.org/ver10/tptz/" +
    "ZoomSpaces/PositionGenericSpace</tptz:URI>\n" +
    "<tptz:XRange>\n" +
    "<tptz:Min>0.0</tptz:Min>\n" +
    "<tptz:Max>1.0</tptz:Max>\n" +
    "</tptz:XRange>\n" +
    "</tptz:Range>\n" +
    "</tptz:ZoomLimits>\n" +
    "</tptz:PTZConfiguration>\n" +
    "</tptz:GetConfigurationsResponse>"

  /** The fault body for an operation the server does not implement, with its two values as holes. */
  const RECEIVER_FAULT_TEXT: seq<string> := [
    "<SOAP-ENV:Fault>\n" +
    "<SOAP-ENV:Code>\n" +
    "<SOAP-ENV:Value>",
    "</SOAP-ENV:Value>\n" +
    "</SOAP-ENV:Code>\n" +
    "<SOAP-ENV:Reason>\n" +
    "<SOAP-ENV:Text>",
    "</SOAP-ENV:Text>\n" +
    "</SOAP-ENV:Reason>\n" +
    "</SOAP-ENV:Fault>"
  ]

  const NOT_IMPLEMENTED_FAULT := Fill(RECEIVER_FAULT_TEXT, ["SOAP-ENV:Receiver", "Method not implemented"])

  /** The fault blames the receiver, not the sender, for a request naming no known operation. */
  lemma NotImplementedFaultContent()
    ensures Unfill2(RECEIVER_FAULT_TEXT, '<', NOT_IMPLEMENTED_FAULT) == Some(("SOAP-ENV:Receiver", "Method not implemented"))
  {
    assert RECEIVER_FAULT_TEXT[1][0] == '<' && RECEIVER_FAULT_TEXT[2][0] == '<';
    Unfill2Fill(RECEIVER_FAULT_TEXT, '<', "SOAP-ENV:Receiver", "Method not implemented");
  }

  // ---------------------------------------------------------------- the profile list

  const PROFILE_TEXT: seq<string> := [
    "<trt:Profiles token=\"",
    "\" fixed=\"true\">\n" +
    "<trt:Name>",
    "</trt:Name>\n" +
    "<trt:VideoSourceConfiguration " +
    "token=\"VideoSource_1\" fixed=\"true\">\n" +
    "<trt:Name>VideoSourceConfig</trt:Name>\n" +
    "<trt:UseCount>2</trt:UseCount>\n" +
    "<trt:SourceToken>VideoSource_1</" +
    "trt:SourceToken>\n" +
    "<trt:Bounds x=\"0\" y=\"0\" width=\"",
    "\" height=\"",
    "\"/>\n" +
    "</trt:VideoSourceConfiguration>\n" +
    "<trt:VideoEncoderConfiguration token=\"",
    "\" fixed=\"true\">\n" +
    "<trt:Name>VideoEncoderConfig</trt:Name>\n" +
    "<trt:UseCount>1</trt:UseCount>\n" +
    "<trt:Encoding>H264</trt:Encoding>\n" +
    "<trt:Resolution>\n" +
    "<trt:Width>",
    "</trt:Width>\n" +
    "<trt:Height>",
    "</trt:Height>\n" +
    "</trt:Resolution>\n" +
    "<trt:Quality>1</trt:Quality>\n" +
    "<trt:RateControl>\n" +
    "<trt:FrameRateLimit>",
    "</trt:FrameRateLimit>\n" +
    "<trt:EncodingInterval>1</trt:EncodingInterval>" +
    "\n" +
    "<trt:BitrateLimit>",
    "</trt:BitrateLimit>\n" +
    "</trt:RateControl>\n" +
    "<trt:H264>\n" +
    "<trt:GovLength>30</trt:GovLength>\n" +
    "<trt:H264Profile>Baseline</trt:H264Profile>\n" +
    "</trt:H264>\n" +
    "</trt:VideoEncoderConfiguration>\n" +
    "</trt:Profiles>\n"
  ]

  function ProfileFields(p: MediaProfile): seq<string> {
    [p.token, p.name, IntToString(p.width), IntToString(p.height), p.videoEncoderToken,
     IntToString(p.width), IntToString(p.height), IntToString(p.framerate), IntToString(p.bitrate)]
  }

  /** The `<trt:Profiles>` element one iteration of the profile loop appends. */
  function ProfileBlock(p: MediaProfile): string {
    Fill(PROFILE_TEXT, ProfileFields(p))
  }

  /** A profile's element opens with its token and reports its name, encoder and bitrate. */
  lemma ProfileBlockShape(p: MediaProfile)
    ensures IsPrefix(PROFILE_TEXT[0] + p.token, ProfileBlock(p))
    ensures Contains(ProfileBlock(p), p.name)
    ensures Contains(ProfileBlock(p), p.videoEncoderToken)
    ensures Contains(ProfileBlock(p), IntToString(p.bitrate))
    ensures IsSuffix(PROFILE_TEXT[9], ProfileBlock(p))
  {
    var fields := ProfileFields(p);
    FillStart(PROFILE_TEXT, fields);
    FillContains(PROFILE_TEXT, fields, 1);
    FillContains(PROFILE_TEXT, fields, 4);
    FillContains(PROFILE_TEXT, fields, 8);
    FillEnd(PROFILE_TEXT, fields);
  }

  /** The elements of all `profiles`, in order. */
  function ProfilesXml(profiles: seq<MediaProfile>): string {
    ConcatMap(ProfileBlock, profiles)
  }

  /** Each profile's element appears in the list between those of the profiles around it. */
  lemma ProfileListed(profiles: seq<MediaProfile>, i: nat)
    requires i < |profiles|
    ensures ProfilesXml(profiles) == ProfilesXml(profiles[..i]) + ProfileBlock(profiles[i]) + ProfilesXml(profiles[i + 1..])
    ensures Contains(ProfilesXml(profiles), "<trt:Profiles token=\"" + profiles[i].token)
  {
    ConcatMapSplit(ProfileBlock, profiles, i);
    ProfileBlockShape(profiles[i]);
    MiddleOfThree(ProfilesXml(profiles[..i]), ProfileBlock(profiles[i]), ProfilesXml(profiles[i + 1..]),
                  PROFILE_TEXT[0] + profiles[i].token);
  }

  const GET_PROFILES_TEXT: seq<string> := ["<trt:GetProfilesResponse>\n", "</trt:GetProfilesResponse>"]

  function GetProfilesBody(profilesXml: string): string {
    Fill(GET_PROFILES_TEXT, [profilesXml])
  }

  /** The profile list is read back from the body. */
  lemma GetProfilesBodyRoundTrip(profilesXml: string)
    ensures Unfill1(GET_PROFILES_TEXT, GetProfilesBody(profilesXml)) == Some(profilesXml)
  {
    Unfill1Fill(GET_PROFILES_TEXT, profilesXml);
  }

  // ---------------------------------------------------------------- the HTTP response

  const HTTP_TEXT: seq<string> := [
    "HTTP/1.1 200 OK\r\n" +
    "Content-Type: application/soap+xml; " +
    "charset=utf-8\r\n" +
    "Content-Length: ",
    "\r\n" +
    "Connection: close\r\n" +
    "\r\n"
  ]

  /** The HTTP response carrying `soap`: status 200 whatever the body, and its length in characters. */
  function HttpResponse(soap: string): string {
    Fill(HTTP_TEXT, [NatToString(|soap|)]) + soap
  }

  /** A client's reading of a response: the declared Content-Length and the payload after the header. */
  function ReadResponse(response: string): Option<(nat, string)> {
    if !IsPrefix(HTTP_TEXT[0], response) then None
    else
      var (digits, rest) := TakeUntil(response[|HTTP_TEXT[0]|..], '\r');
      if !IsPrefix(HTTP_TEXT[1], rest) then None
      else
        match ParseNat(digits)
        case None => None
        case Some(n) => Some((n, rest[|HTTP_TEXT[1]|..]))
  }

  /** The declared Content-Length is the length of the payload, which is exactly the SOAP text. */
  lemma ReadHttpResponse(soap: string)
    ensures ReadResponse(HttpResponse(soap)) == Some((|soap|, soap))
  {
    var digits := NatToString(|soap|);
    var tail := HTTP_TEXT[1] + soap;
    Fill1(HTTP_TEXT, digits);
    var response := HttpResponse(soap);
    assert response == HTTP_TEXT[0] + (digits + tail);
    SelfPrefix(HTTP_TEXT[0], digits + tail);
    assert response[|HTTP_TEXT[0]|..] == digits + tail;
    assert '\r' !in digits by {
      forall i | 0 <= i < |digits| ensures digits[i] != '\r' {
        assert IsDigit(digits[i]);
      }
    }
    assert tail[0] == '\r';
    TakeUntilJoin(digits, tail, '\r');
    SelfPrefix(HTTP_TEXT[1], soap);
    assert tail[|HTTP_TEXT[1]|..] == soap;
    ParseNatToString(|soap|);
  }

  /** Every response, faults included, is sent with status 200. */
  lemma AlwaysStatusOk(soap: string)
    ensures IsPrefix("HTTP/1.1 200 OK\r\n", HttpResponse(soap))
  {
    FillStart(HTTP_TEXT, [NatToString(|soap|)]);
    var head := HTTP_TEXT[0] + NatToString(|soap|);
    assert IsPrefix("HTTP/1.1 200 OK\r\n", head) by {
      SelfPrefix("HTTP/1.1 200 OK\r\n", "Content-Type: application/soap+xml; " + "charset=utf-8\r\n" + "Content-Length: " + NatToString(|soap|));
    }
  }

  /** The request text a read delivers: `std::string(buffer)` stops at the first NUL. */
  function RequestText(received: string): (request: string)
    ensures '\0' !in request && IsPrefix(request, received)
    ensures '\0' !in received ==> request == received
    ensures |request| < |received| ==> received[|request|] == '\0'
  {
    BeforeFirst(received, '\0')
  }

  // ---------------------------------------------------------------- the server object

  class OnvifServer {
    var port: int
    var running: bool
    var deviceUuid: string
    var deviceName: string
    var manufacturer: string
    var model: string
    var serialNumber: string
    var firmwareVersion: string
    var mediaProfiles: seq<MediaProfile>

    /** A stopped server on `port` with the sample identity and the two default profiles. */
    constructor (port: int)
      ensures this.port == port && !running
      ensures deviceUuid == "urn:uuid:12345678-1234-1234-1234-123456789012"
      ensures deviceName == "ONVIF Camera" && manufacturer == "Sample Manufacturer"
      ensures model == "Sample Model" && serialNumber == "123456789" && firmwareVersion == "1.0.0"
      ensures mediaProfiles == [PROFILE_1, PROFILE_2]
    {
      this.port := port;
      running := false;
      deviceUuid := "urn:uuid:12345678-1234-1234-1234-123456789012";
      deviceName := "ONVIF Camera";
      manufacturer := "Sample Manufacturer";
      model := "Sample Model";
      serialNumber := "123456789";
      firmwareVersion := "1.0.0";
      mediaProfiles := [];
      new;
      InitializeMediaProfiles();
    }

    /** Appends the main stream profile and then the sub stream profile. */
    method InitializeMediaProfiles()
      modifies this`mediaProfiles
      ensures mediaProfiles == old(mediaProfiles) + [PROFILE_1, PROFILE_2]
    {
      var profile1 := MediaProfile("Profile_1", "MainStream", "VideoEncoder_1", "AudioEncoder_1", 1920, 1080, 30, 4000000);
      var profile2 := MediaProfile("Profile_2", "SubStream", "VideoEncoder_2", "AudioEncoder_2", 640, 480, 15, 1000000);
      mediaProfiles := mediaProfiles + [profile1];
      mediaProfiles := mediaProfiles + [profile2];
    }

    /** The body the handler `h` answers with, from the server's current fields. */
    function ResponseBody(h: Handler): string
      reads this
    {
      match h
      case DeviceInformation => DeviceInformationBody(manufacturer, model, firmwareVersion, serialNumber, deviceUuid)
      case Capabilities => CapabilitiesBody(port)
      case Profiles => GetProfilesBody(ProfilesXml(mediaProfiles))
      case StreamUri => StreamUriBody(port)
      case SystemDateAndTime => SYSTEM_DATE_AND_TIME_BODY
      case PtzConfigurations => PTZ_CONFIGURATIONS_BODY
      case NotImplemented => NOT_IMPLEMENTED_FAULT
    }

    /** Builds one `<trt:Profiles>` element per media profile, in order, inside the envelope. */
    method HandleGetProfiles() returns (response: string)
      ensures response == GenerateSoapEnvelope(GetProfilesBody(ProfilesXml(mediaProfiles)))
    {
      var profilesXml := "";
      var i := 0;
      while i < |mediaProfiles|
        invariant 0 <= i <= |mediaProfiles|
        invariant profilesXml == ProfilesXml(mediaProfiles[..i])
      {
        var profile := mediaProfiles[i];
        ConcatMapSnoc(ProfileBlock, mediaProfiles, i);
        profilesXml := profilesXml + ProfileBlock(profile);
        i := i + 1;
      }
      assert mediaProfiles[..i] == mediaProfiles;
      var body := GetProfilesBody(profilesXml);
      response := GenerateSoapEnvelope(body);
    }

    /** Answers a request with the envelope around the body of the handler its text selects. */
    method ProcessRequest(request: string) returns (response: string)
      ensures response == GenerateSoapEnvelope(ResponseBody(Route(request)))
    {
      var body: string;
      match Route(request)
      case DeviceInformation =>
        body := DeviceInformationBody(manufacturer, model, firmwareVersion, serialNumber, deviceUuid);
        response := GenerateSoapEnvelope(body);
      case Capabilities =>
        body := CapabilitiesBody(port);
        response := GenerateSoapEnvelope(body);
      case Profiles =>
        response := HandleGetProfiles();
      case StreamUri =>
        body := StreamUriBody(port);
        response := GenerateSoapEnvelope(body);
      case SystemDateAndTime =>
        body := SYSTEM_DATE_AND_TIME_BODY;
        response := GenerateSoapEnvelope(body);
      case PtzConfigurations =>
        body := PTZ_CONFIGURATIONS_BODY;
        response := GenerateSoapEnvelope(body);
      case NotImplemented =>
        body := NOT_IMPLEMENTED_FAULT;
        response := GenerateSoapEnvelope(body);
    }

    /**
     * Serves one connection that delivered `received` (at most 4095 characters, the buffer
     * less its terminator): nothing is sent for an empty read, otherwise the HTTP response
     * around the answer to the request text.
     */
    method HandleClient(received: string) returns (sent: Option<string>)
      requires |received| <= 4095
      ensures |received| == 0 ==> sent == None
      ensures |received| > 0 ==> sent == Some(HttpResponse(GenerateSoapEnvelope(ResponseBody(Route(RequestText(received))))))
    {
      sent := None;
      if |received| > 0 {
        var request := RequestText(received);
        var soapResponse := ProcessRequest(request);
        sent := Some(HttpResponse(soapResponse));
      }
    }
  }
}
