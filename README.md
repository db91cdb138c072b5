# fathome core in Dafny

fathome is a Java client for the ABB/Busch-Jaeger free@home system access point (SysAP). It logs in to
the SysAP over XMPP with SCRAM authentication, reads the SysAP's project (floors, rooms, devices and
their channels, with the data points that carry each channel's state), keeps that model up to date
from update messages, and offers typed views of channels (switches, dimmers, blinds, scenes and
sensors) whose commands become `RemoteInterface.setDatapoint` RPC calls.

This project models the core of that client and proves properties of the model:

- `crypt_util.dfy` (module `CryptUtil`): the SCRAM helpers. They cover the PBKDF2-style `Hi` loop over a
  stateful `Mac` (proved equal to RFC 5802's U1 xor ... xor Un), `hmac` key checks, the
  SASLprep-style preparation of passwords, and the byte-wise `xor`.
- `crypt_context.dfy` (module `FahCryptContext`): the registry of authentication methods kept in
  insertion order, the choice of the best offered method, the libsodium client key layout, and
  `init`, which stores the key pair and nonce and sends the key exchange request.
- `communication.dfy` (module `Communication`): the RPC channel, as a log of the requests sent.
- `project.dfy` (module `Project`): the project, floor, room, device and channel objects, with their
  maps updated in place, and `FahProject.addPart` with its indexes.
- `channel_rules.dfy` (module `FahChannelRules`): the root `FahChannel` with its role tests
  (`isSwitch`, `isDimmer`, ...) and its checked casts.
- `things.dfy` (module `Things`): switches, dimmers, blinds and scenes as data point reads and writes,
  and the sensor table with the processor that creates sensors for a device.
- `factories.dfy` and `free_at_home.dfy` (modules `ChannelFactories`, `FreeAtHomeClient`): the channel
  factory registry (fid name first, then function id), device processors, `getChannel`, and
  `loadAll`.
- `xml_processor.dfy`, `project_load.dfy`, `project_xml.dfy` (modules `XmlProcessor`,
  `ProjectLoad`, `ProjectXml`): `FahXmlProcessor`, which turns a project document and update
  documents into the object model.
- `xpp_walker.dfy`, `project_parser.dfy` (modules `Xpp`, `ProjectParser`): the pull-parser walker
  that dispatches start tags to handlers, and `FahProjectParser`, which builds the project from the
  XML event stream.
- `http_util.dfy` (module `HttpUtil`): status classification of `httpGet`, `parseHeaders`
  and the multipart dispatch of `handleMultipart`.
- `java_lang.dfy` (module `JavaLang`): the Java library behaviour the core relies on. It covers
  `Integer.parseInt` and `Integer.toString`, the `forEach` that stops at the first exception,
  `TreeMap` key order, and the exceptions.

Objects whose fields the Java code updates (`Mac`, `FahCryptContext`, `FahProject`, `FahFloor`,
`FahRoom`, `FahDevice`, channels, `FreeAtHome`, `XppWalker`, the pull parser) are classes whose methods
state their new state. The pure parts are functions with lemmas about them.

Where a description of the system and the code differ, the model follows the code, except for the room lookup of a device listed under Findings, which the model corrects. For example, `saslPrepare` maps the zero-width space to a space before it removes invisible characters, so that character becomes a space rather than disappearing (`CryptUtil.ZeroWidthSpaceBecomesSpace`).

## Model

| member | source | states |
|---|---|---|
| JavaLang.FirstWhere | src/main/java/de/hasait/fathome/project/FahXmlProcessor.java:36-48 | A forEach over entries stops at the first entry that throws: no entry before the returned position throws, and the entry at it throws when it is inside the sequence |
| JavaLang.ParseInt | src/main/java/de/hasait/fathome/project/FahXmlProcessor.java:107-109 | Integer.parseInt: the empty string is a NumberFormatException; a digit string of the radix parses to the number it denotes when that fits in 32 bits and throws otherwise; '+' or '-' followed by digits parses to the number or its negation under the same 32-bit bounds; nothing else parses |
| JavaLang.ParseNullable | src/main/java/de/hasait/fathome/project/FahProjectParser.java:190-192 | parseId of a missing attribute throws NumberFormatException; otherwise it is Integer.parseInt of the attribute |
| JavaLang.NatToString | src/main/java/de/hasait/fathome/things/FahDimmer.java:57-58 | Integer.toString of a non-negative number is a non-empty string of decimal digits |
| JavaLang.NatToStringValue | src/main/java/de/hasait/fathome/things/FahDimmer.java:57-58 | The digits Integer.toString writes denote the number again |
| JavaLang.ParseIntToString | src/main/java/de/hasait/fathome/things/FahDimmer.java:44-58 | Integer.parseInt(Integer.toString(n)) == n for every 32-bit n, negatives included |
| JavaLang.StringLessIrreflexive | src/main/java/de/hasait/fathome/project/FahProject.java:49-51 | String.compareTo order, which sorts TreeMap keys, is irreflexive |
| JavaLang.StringLessTransitive | src/main/java/de/hasait/fathome/project/FahProject.java:49-51 | String.compareTo order is transitive |
| JavaLang.StringLessTotal | src/main/java/de/hasait/fathome/project/FahProject.java:49-51 | Any two distinct strings are ordered one way or the other |
| JavaLang.MinKey | src/main/java/de/hasait/fathome/project/FahProject.java:49-51 | The first key of a non-empty TreeMap is one of its keys and precedes all others |
| JavaLang.SortedKeys | src/main/java/de/hasait/fathome/project/FahDevice.java:53-55 | TreeMap.values() order: every key exactly once, in strictly ascending order |
| CryptUtil.Mac.constructor | src/main/java/de/hasait/fathome/util/CryptUtil.java:73-86 | A Mac obtained and initialised by hmac holds the algorithm and key and no pending input |
| CryptUtil.Mac.Update | src/main/java/de/hasait/fathome/util/CryptUtil.java:52-53 | update appends its bytes to the pending input and changes nothing else |
| CryptUtil.Mac.DoFinal | src/main/java/de/hasait/fathome/util/CryptUtil.java:55 | doFinal returns the MAC of the key over all pending input, of the algorithm's length, and resets the Mac |
| CryptUtil.Hmac | src/main/java/de/hasait/fathome/util/CryptUtil.java:73-86 | An unknown algorithm is a RuntimeException; an empty key is the IllegalArgumentException of SecretKeySpec; otherwise a fresh Mac with that algorithm and key |
| CryptUtil.Xor | src/main/java/de/hasait/fathome/util/CryptUtil.java:107-113 | The result has the first array's length and each byte is the xor of the bytes at that index |
| CryptUtil.XorBytesCancel | src/main/java/de/hasait/fathome/util/CryptUtil.java:107-113 | Xoring twice with the same bytes gives back the original array |
| CryptUtil.HiSpec | src/main/java/de/hasait/fathome/util/CryptUtil.java:58-62 | The accumulator after n rounds has the MAC length |
| CryptUtil.XorAll | src/main/java/de/hasait/fathome/util/CryptUtil.java:58-62 | The xor of equal-width blocks keeps their width |
| CryptUtil.HiIsXorOfRounds | src/main/java/de/hasait/fathome/util/CryptUtil.java:50-65 | The loop's accumulator after n rounds is U1 xor U2 xor ... xor Un, the Hi of section 2.2 of RFC 5802 |
| CryptUtil.HiDifference | src/main/java/de/hasait/fathome/util/CryptUtil.java:58-62 | Consecutive accumulators differ by exactly the newest U: Hi(n) xor Hi(n-1) == Un |
| CryptUtil.HiResult | src/main/java/de/hasait/fathome/util/CryptUtil.java:50-65 | A successful hi uses a known algorithm and yields a value of that algorithm's MAC length |
| CryptUtil.Hi | src/main/java/de/hasait/fathome/util/CryptUtil.java:50-65 | The method computes HiResult, errors included; with at most one iteration the result is U1 = HMAC(password, salt + INT(1)) |
| CryptUtil.HiRounds | src/main/java/de/hasait/fathome/util/CryptUtil.java:56-64 | The loop leaves the Hi accumulator of max(iterations, 1) rounds: U1 xor ... xor Un |
| CryptUtil.HiRound | src/main/java/de/hasait/fathome/util/CryptUtil.java:59-61 | One pass of the loop turns U(c) into U(c+1) and the accumulator of c rounds into that of c+1 |
| CryptUtil.MapSpaces | src/main/java/de/hasait/fathome/util/CryptUtil.java:89 | Same length; each non-ASCII space becomes ' ' and every other character is kept |
| CryptUtil.RemoveInvisible | src/main/java/de/hasait/fathome/util/CryptUtil.java:90 | No commonly-mapped-to-nothing character is left and the string gets no longer |
| CryptUtil.RemoveInvisibleKeeps | src/main/java/de/hasait/fathome/util/CryptUtil.java:90 | Every other character survives as often as it occurred |
| CryptUtil.MapSpacesAppend | src/main/java/de/hasait/fathome/util/CryptUtil.java:89 | Mapping spaces distributes over concatenation |
| CryptUtil.RemoveInvisibleAppend | src/main/java/de/hasait/fathome/util/CryptUtil.java:90 | Removing invisible characters distributes over concatenation |
| CryptUtil.ZeroWidthSpaceBecomesSpace | src/main/java/de/hasait/fathome/util/CryptUtil.java:89-90 | U+200B is in both patterns; it is replaced by a space before the removal step and so is not deleted |
| CryptUtil.SoftHyphenDeleted | src/main/java/de/hasait/fathome/util/CryptUtil.java:90 | A soft hyphen disappears from the password |
| CryptUtil.BeforeNormalizationClean | src/main/java/de/hasait/fathome/util/CryptUtil.java:89-90 | The string given to NFKC holds neither a non-ASCII space nor a removable character |
| CryptUtil.SaslPrepare | src/main/java/de/hasait/fathome/util/CryptUtil.java:88-105 | A password with a prohibited or bidi-violating character fails with an IllegalArgumentException; otherwise the result is the password with spaces mapped, invisible characters removed and then normalized |
| CryptUtil.Utf8Char | src/main/java/de/hasait/fathome/util/CryptUtil.java:47 | A character encodes as one to four UTF-8 bytes, an ASCII character as its own code |
| CryptUtil.Utf8Encode | src/main/java/de/hasait/fathome/util/CryptUtil.java:47 | A password of n characters encodes as between n and 4n bytes |
| CryptUtil.SaltedPassword | src/main/java/de/hasait/fathome/util/CryptUtil.java:46-48 | A preparation failure is the result; a success uses a known algorithm and has its MAC length |
| CryptUtil.ComputeSaltedPassword | src/main/java/de/hasait/fathome/util/CryptUtil.java:46-48 | The method's result is SaltedPassword, errors included |
| CryptUtil.PreparationErrorFirst | src/main/java/de/hasait/fathome/util/CryptUtil.java:46-48 | A bad password is reported before an unknown algorithm: with an unknown algorithm the result is IllegalArgumentException exactly when preparation fails |
| CryptUtil.InvisiblePasswordHasEmptyKey | src/main/java/de/hasait/fathome/util/CryptUtil.java:81 | The password soft hyphen followed by zero-width joiner prepares to the empty key, and saltedPassword fails with SecretKeySpec's IllegalArgumentException |
| FahCryptContext.Put | src/main/java/de/hasait/fathome/comm/FahCryptContext.java:50 | The key list is unchanged when the key exists, otherwise the key is appended; unique keys stay unique |
| FahCryptContext.PutExisting | src/main/java/de/hasait/fathome/comm/FahCryptContext.java:43-51 | Re-registering a SCRAM name keeps its rank and replaces its HMAC |
| FahCryptContext.PutNew | src/main/java/de/hasait/fathome/comm/FahCryptContext.java:43-51 | Registering a new SCRAM name appends it with lowest priority |
| FahCryptContext.AlgorithmRegistry.constructor | src/main/java/de/hasait/fathome/comm/FahCryptContext.java:36-41 | The default registry holds SCRAM-SHA-256 then SCRAM-SHA-1 with their HMACs |
| FahCryptContext.AlgorithmRegistry.RegisterAlgorithms | src/main/java/de/hasait/fathome/comm/FahCryptContext.java:43-51 | An unknown HMAC is a RuntimeException and leaves the registry unchanged; otherwise the registry becomes Put of the entry |
| FahCryptContext.BestAuthMethod | src/main/java/de/hasait/fathome/comm/FahCryptContext.java:108-119 | None exactly when the SysAP offers no registered method; otherwise the first registered method, in registry order, that is offered |
| FahCryptContext.DefaultPrefersSha256 | src/main/java/de/hasait/fathome/comm/FahCryptContext.java:108-119 | With the default registry SCRAM-SHA-256 is chosen whenever it is offered |
| FahCryptContext.Onetimeauth | src/main/java/de/hasait/fathome/comm/FahCryptContext.java:94 | crypto_onetimeauth succeeds exactly when the key has the required length and yields a tag of the fixed tag length; otherwise IllegalArgumentException "Invalid key length - actual: n, expected: m" |
| FahCryptContext.ClientKey | src/main/java/de/hasait/fathome/comm/FahCryptContext.java:84-106 | A salted-password failure propagates; otherwise the key is built exactly when the salted password is 32 bytes and the public key, nonce and tag fill the 64-byte key, and a length mismatch is a RuntimeException; the key is the public key, then the nonce, then the one-time authenticator of the public key under the generic hash of the salted password and nonce |
| FahCryptContext.Sha1NeverYieldsClientKey | src/main/java/de/hasait/fathome/comm/FahCryptContext.java:85-89 | A 20-byte SHA-1 salted password always fails the 32-byte check |
| FahCryptContext.LibsodiumClientKeySucceeds | src/main/java/de/hasait/fathome/comm/FahCryptContext.java:96-105 | With libsodium's sizes and a 32-byte salted password the 64-byte assembly succeeds |
| FahCryptContext.ArrayCopy | src/main/java/de/hasait/fathome/comm/FahCryptContext.java:102-104 | System.arraycopy writes the source at the offset and leaves every other byte alone |
| FahCryptContext.CopyParts | src/main/java/de/hasait/fathome/comm/FahCryptContext.java:101-105 | The three copies into a 64-byte array yield the concatenation of the parts |
| FahCryptContext.CryptContext.constructor | src/main/java/de/hasait/fathome/comm/FahCryptContext.java:58-63 | A new context keeps its communication and has no key pair or nonce |
| FahCryptContext.CryptContext.GetBestAuthMethod | src/main/java/de/hasait/fathome/comm/FahCryptContext.java:108-119 | The method returns BestAuthMethod over its registry |
| FahCryptContext.CryptContext.CreateClientKey | src/main/java/de/hasait/fathome/comm/FahCryptContext.java:84-106 | The method returns ClientKey for its key pair, nonce and password |
| FahCryptContext.CryptContext.Init | src/main/java/de/hasait/fathome/comm/FahCryptContext.java:65-82 | No supported method: false, nothing generated or sent; otherwise key pair and nonce are stored; a key failure propagates before anything is sent; success sends cryptExchangeLocalKeys2 with the jid, key and method name and returns true |
| Communication.FahCommunication.constructor | src/main/java/de/hasait/fathome/FreeAtHome.java:85-96 | A new connection has sent nothing |
| Communication.FahCommunication.RpcCall | src/main/java/de/hasait/fathome/FreeAtHome.java:85-96 | An RPC call appends its request to what was sent and changes nothing else |
| Project.PutOrRemove | src/main/java/de/hasait/fathome/project/AbstractFahChannel.java:64-66 | A value is stored under its key, a null value removes the key, and every other key keeps its value |
| Project.PutOrRemoveIdempotent | src/main/java/de/hasait/fathome/project/AbstractFahChannel.java:64-66 | Setting the same data point twice equals setting it once |
| Project.PutOrRemoveLastWins | src/main/java/de/hasait/fathome/project/FahDevice.java:109-114 | Of two writes to one key the later decides |
| Project.Floor.constructor | src/main/java/de/hasait/fathome/FahFloor.java:36-40 | A new floor has its uid, no name, level 0 and no rooms |
| Project.Floor.AddRoom | src/main/java/de/hasait/fathome/FahFloor.java:66-68 | The room joins the floor's room set |
| Project.Room.constructor | src/main/java/de/hasait/fathome/FahRoom.java:35-42 | A new room belongs to its floor, is in the floor's room set and has no devices |
| Project.Room.AddDevice | src/main/java/de/hasait/fathome/FahRoom.java:60-62 | The device joins the room's device set |
| Project.Room.RemoveDevice | src/main/java/de/hasait/fathome/FahRoom.java:64-66 | Exactly that device leaves the room's device set |
| Project.Device.constructor | src/main/java/de/hasait/fathome/project/FahDevice.java:47-51 | A new device has its serial number and no channels, parameters, type, device id, function, name, room or project |
| Project.Device.AddChannel | src/main/java/de/hasait/fathome/project/FahDevice.java:93-95 | The channel is stored under its id, replacing an earlier one with that id; other ids keep theirs |
| Project.Device.GetChannel | src/main/java/de/hasait/fathome/project/FahDevice.java:57-59 | The channel with that id, or null exactly when there is none |
| Project.Device.AllChannels | src/main/java/de/hasait/fathome/project/FahDevice.java:53-55 | Each channel of the device exactly once, in ascending order of id |
| Project.Device.ParameterValue | src/main/java/de/hasait/fathome/project/FahDevice.java:77-79 | The stored value of the parameter, or null when it is not set |
| Project.Device.SetParameter | src/main/java/de/hasait/fathome/project/FahDevice.java:109-114 | The parameter map becomes PutOrRemove of the old one; nothing else changes |
| Project.Device.SetRoom | src/main/java/de/hasait/fathome/project/FahDevice.java:116-124 | The device leaves the old room's device set, joins the new room's set and records the new room; other rooms are unchanged |
| Project.Channel.constructor | src/main/java/de/hasait/fathome/project/AbstractFahChannel.java:42-50 | A new channel has its device, id, function and kind, no data points, inputs, name or project, and is registered under its id in the device's channel map |
| Project.Channel.DataPointValue | src/main/java/de/hasait/fathome/project/AbstractFahChannel.java:79-81 | The cached value of the data point, or null when it is absent |
| Project.Channel.SetDataPoint | src/main/java/de/hasait/fathome/project/AbstractFahChannel.java:64-69 | The data point cache becomes PutOrRemove of the old one, so the data point reads back the value; nothing else changes |
| Project.Channel.SetName | src/main/java/de/hasait/fathome/project/AbstractFahChannel.java:71-73 | Only the channel's name changes |
| Project.Channel.RpcSetDataPoint | src/main/java/de/hasait/fathome/project/AbstractFahChannel.java:87-94 | Without a project a NullPointerException is thrown and nothing is sent; otherwise setDatapoint on serial/channel/data point is sent and the cache then holds the value |
| Project.IndexPart | src/main/java/de/hasait/fathome/project/FahProject.java:83-109 | Each kind of part lands in its own index under its key, a channel by name only when it has one, and all other entries keep their values |
| Project.IndexPartIdempotent | src/main/java/de/hasait/fathome/project/FahProject.java:77-110 | Adding the same part twice is the same as adding it once |
| Project.IndexPartLaterDeviceWins | src/main/java/de/hasait/fathome/project/FahProject.java:99-102 | Of two devices with the same serial number the later one is indexed |
| Project.NamelessChannelNotIndexed | src/main/java/de/hasait/fathome/project/FahProject.java:103-109 | A channel without a name leaves the name index unchanged |
| Project.FahProject.constructor | src/main/java/de/hasait/fathome/project/FahProject.java:45-47 | A new project has its communication, empty indexes and no sysap or config values |
| Project.FahProject.AddPart | src/main/java/de/hasait/fathome/project/FahProject.java:77-110 | A device or channel part joins this project and the indexes become IndexPart of the old ones; a part whose TreeMap key is null throws NullPointerException and leaves them unchanged |
| Project.FahProject.AddSysap | src/main/java/de/hasait/fathome/project/FahProject.java:112-114 | A missing name is a NullPointerException; otherwise the value is stored under the name and nothing else changes |
| Project.FahProject.AddConfig | src/main/java/de/hasait/fathome/project/FahProject.java:73-75 | A missing name is a NullPointerException; otherwise the value is stored under the name and nothing else changes |
| Project.FahProject.GetChannel | src/main/java/de/hasait/fathome/project/FahProject.java:53-55 | A null key throws NullPointerException; otherwise the entry under it, or null exactly when there is none |
| Project.FahProject.GetRoomByUid | src/main/java/de/hasait/fathome/project/FahProject.java:65-67 | A null key throws NullPointerException; otherwise the entry under it, or null exactly when there is none |
| Project.FahProject.GetDeviceBySerialNumber | src/main/java/de/hasait/fathome/FreeAtHome.java:213-215 | A null key throws NullPointerException; otherwise the entry under it, or null exactly when there is none |
| Project.FahProject.GetFunctionByFunctionId | src/main/java/de/hasait/fathome/project/FahProject.java:61-63 | The function indexed under that id, or null exactly when there is none |
| Project.FahProject.GetStringByNameId | src/main/java/de/hasait/fathome/project/FahProject.java:69-71 | The string indexed under that name id, or null exactly when there is none |
| Project.FahProject.AllChannels | src/main/java/de/hasait/fathome/project/FahProject.java:49-51 | Each named channel once, in ascending order of name |
| FahChannelRules.DimmerIsSwitch | src/main/java/de/hasait/fathome/FahChannel.java:102-114 | Every function that makes a channel a dimmer also makes it a switch |
| FahChannelRules.BlindIsNotSwitch | src/main/java/de/hasait/fathome/FahChannel.java:97-114 | No function makes a channel both a blind and a switch |
| FahChannelRules.FahChannel.constructor | src/main/java/de/hasait/fathome/FahChannel.java:44-51 | A new channel has its id, no function, no name and no data points |
| FahChannelRules.FahChannel.Is | src/main/java/de/hasait/fathome/FahChannel.java:97-114 | A channel without a function throws NullPointerException; otherwise the answer is whether its function qualifies for the role |
| FahChannelRules.FahChannel.As | src/main/java/de/hasait/fathome/FahChannel.java:53-71 | The cast succeeds exactly when the role test is true; otherwise a RuntimeException "Not a ..." naming the channel, or NullPointerException without a function |
| FahChannelRules.FahChannel.DataPointValue | src/main/java/de/hasait/fathome/FahChannel.java:77-79 | The cached value of the data point, or null when it is absent |
| FahChannelRules.FahChannel.SetDataPoint | src/main/java/de/hasait/fathome/FahChannel.java:125-130 | The data point cache becomes PutOrRemove of the old one; nothing else changes |
| FahChannelRules.AsDimmerImpliesAsSwitch | src/main/java/de/hasait/fathome/FahChannel.java:53-71 | A channel that can be viewed as a dimmer can also be viewed as a switch |
| Things.Level | src/main/java/de/hasait/fathome/things/FahDimmer.java:44-47 | The dim level is 0 when the data point is absent and otherwise Integer.parseInt of its value, with that method's exceptions |
| Things.LevelRoundTrip | src/main/java/de/hasait/fathome/things/FahDimmer.java:44-58 | Reading back a level written by setDimLevel gives that level |
| Things.AbsentSwitchStateIsOff | src/main/java/de/hasait/fathome/things/FahSwitch.java:42-49 | Without a state data point a switch reads as off and not on |
| Things.SwitchValue | src/main/java/de/hasait/fathome/things/FahSwitch.java:51-53 | The value written is "1" exactly for on |
| Things.SetSwitchState | src/main/java/de/hasait/fathome/things/FahSwitch.java:51-53 | Without a project NullPointerException and no change; otherwise setDatapoint with "1" or "0" is sent, the cache is updated, and isOn reads the requested state |
| Things.SwitchOn | src/main/java/de/hasait/fathome/things/FahSwitch.java:59-61 | NullPointerException without a project, with the cache unchanged; otherwise the switch data point is cached as "1", the setDatapoint request for that data point and value is appended to the project's sent log, and isOn holds afterwards |
| Things.SwitchOff | src/main/java/de/hasait/fathome/things/FahSwitch.java:55-57 | NullPointerException without a project, with the cache unchanged; otherwise the switch data point is cached as "0", the setDatapoint request for that data point and value is appended to the project's sent log, and isOff holds afterwards |
| Things.Toggle | src/main/java/de/hasait/fathome/things/FahSwitch.java:63-65 | NullPointerException without a project, with the cache unchanged; otherwise the switch data point is cached as the value of the opposite of the state read before, the setDatapoint request for that data point and value is appended to the project's sent log, and isOn is flipped |
| Things.SetDimLevel | src/main/java/de/hasait/fathome/things/FahDimmer.java:52-59 | A level outside 0..100 is an IllegalArgumentException with the level in its message and nothing is changed or sent; without a project NullPointerException with the cache unchanged; otherwise the decimal string is cached in the dim data point, the setDatapoint request for that data point and value is appended to the project's sent log, and getDimLevel returns the level |
| Things.PositionNotClamped | src/main/java/de/hasait/fathome/things/FahBlind.java:55-58 | Any stored 32-bit position, negative or above 100 included, is returned as stored |
| Things.NeverMovingBothWays | src/main/java/de/hasait/fathome/things/FahBlind.java:60-68 | A blind never reports moving up and moving down at once |
| Things.BlindCommand | src/main/java/de/hasait/fathome/things/FahBlind.java:70-80 | Writes the value to the data point through the SysAP (NullPointerException without a project); the movement readings change only if it is the move-state data point, the position only if it is the position data point |
| Things.DefaultBlindCommandsAreNotReadings | src/main/java/de/hasait/fathome/things/FahBlind.java:28-31 | The command data points differ from the position and movement readings |
| Things.MoveDown | src/main/java/de/hasait/fathome/things/FahBlind.java:70-72 | NullPointerException without a project, with the cache unchanged; otherwise "1" is cached in the blind data point and the setDatapoint request for that data point and value is appended to the project's sent log; for the default kind the readings are unchanged |
| Things.MoveUp | src/main/java/de/hasait/fathome/things/FahBlind.java:74-76 | NullPointerException without a project, with the cache unchanged; otherwise "0" is cached in the blind data point and the setDatapoint request for that data point and value is appended to the project's sent log; for the default kind the readings are unchanged |
| Things.Stop | src/main/java/de/hasait/fathome/things/FahBlind.java:78-80 | NullPointerException without a project, with the cache unchanged; otherwise "1" is cached in the stop data point and the setDatapoint request for that data point and value is appended to the project's sent log; for the default kind the readings are unchanged |
| Things.Activate | src/main/java/de/hasait/fathome/things/FahScene.java:42-44 | NullPointerException without a project, with the cache unchanged; otherwise "1" is cached in the scene data point and the setDatapoint request for that data point and value is appended to the project's sent log |
| Things.RawState | src/main/java/de/hasait/fathome/things/FahSensor.java:112-114 | The raw state is the cached value of the sensor's data point |
| Things.SensorTable | src/main/java/de/hasait/fathome/things/FahSensor.java:35-87 | Device id 1000 with pm0000 1 gives channel 0 "NS", with 2 channels 1 "IS1" and 2 "IS2"; 1002 gives a left part (LNS for settings 1 and 2, LIS1 and LIS2 for 3 and 4) then a right part (RNS for 1 and 3, RIS1 and RIS2 for 2 and 4); every other device or setting gets none |
| Things.SensorArgsDistinct | src/main/java/de/hasait/fathome/things/FahSensor.java:35-87 | No two rows of the table share a channel number or a label |
| Things.SensorKeysDistinct | src/main/java/de/hasait/fathome/things/FahSensor.java:88-92 | The channel ids ch000+n and the names device-label of the rows are pairwise distinct |
| Things.AddSensor | src/main/java/de/hasait/fathome/things/FahSensor.java:88-92 | Without a project the sensor is registered on the device and addPart throws NullPointerException; otherwise a fresh sensor channel with the device's function, named device-label, is stored under ch000+n on the device and under its name in the project, other indexes unchanged |
| Things.AddSensorTo | src/main/java/de/hasait/fathome/things/FahSensor.java:88-92 | With a project: a fresh sensor built for the row is stored under its id on the device and under its name in the project; other indexes unchanged |
| Things.OverwrittenLookup | src/main/java/de/hasait/fathome/things/FahSensor.java:88-92 | Writing distinct keys in turn leaves each key with its own value and every other key as it was |
| Things.AddSensors | src/main/java/de/hasait/fathome/things/FahSensor.java:33-93 | No rows: no change; without a project NullPointerException; otherwise every row's sensor is present and only the sensors' ids and names change |
| Things.AddSensorsIn | src/main/java/de/hasait/fathome/things/FahSensor.java:33-93 | With a project: every row's sensor is present and only the sensors' ids and names change |
| Things.AddEachSensor | src/main/java/de/hasait/fathome/things/FahSensor.java:88-92 | One fresh sensor per row, written in row order |
| Things.AddSensorAt | src/main/java/de/hasait/fathome/things/FahSensor.java:88-92 | One more row adds its sensor on top of the earlier ones |
| Things.ProcessDeviceForSensors | src/main/java/de/hasait/fathome/things/FahSensor.java:33-93 | The rows come from the device id and pm0000; no rows: no change; without a project NullPointerException; otherwise each row's sensor is present and nothing outside their ids and names changes |
| ChannelFactories.KindOf | src/main/java/de/hasait/fathome/FreeAtHome.java:116-121 | A registered factory never builds a plain, unknown or sensor channel |
| ChannelFactories.GetChannelFactory | src/main/java/de/hasait/fathome/FreeAtHome.java:253-266 | No function: none; the factory of the fid name when registered; otherwise the factory of the function id if registered |
| ChannelFactories.ChannelKindFor | src/main/java/de/hasait/fathome/FreeAtHome.java:98-104 | Unknown exactly when no factory is found, otherwise the factory's kind |
| ChannelFactories.CreateChannel | src/main/java/de/hasait/fathome/FreeAtHome.java:98-104 | A fresh channel of that kind with device, id and function, nothing else set, registered under its id |
| ChannelFactories.DefaultSwitchFactory | src/main/java/de/hasait/fathome/FreeAtHome.java:116-121 | The default registry picks the switch factory exactly for the switching-actuator fid name |
| ChannelFactories.DefaultFactoriesAgreeWithRoles | src/main/java/de/hasait/fathome/FreeAtHome.java:116-121 | Each default factory is chosen only for functions passing the matching role test (a dimmer also passes the switch test) |
| ChannelFactories.FidNameWins | src/main/java/de/hasait/fathome/FreeAtHome.java:257-260 | When both registries match, the fid name registration is used |
| ChannelFactories.UnregisteredIsUnknown | src/main/java/de/hasait/fathome/FreeAtHome.java:98-104 | A function no factory is registered for yields the unknown kind |
| ChannelFactories.RunProcessors | src/main/java/de/hasait/fathome/FreeAtHome.java:247 | No processors: no change; otherwise (the sensor processor) every sensor row is present and only sensor ids and names change, NullPointerException without a project when the table is non-empty |
| FreeAtHomeClient.SelectUser | src/main/java/de/hasait/fathome/FreeAtHome.java:147-151 | An unknown user name is an IllegalArgumentException; otherwise that user's jid |
| FreeAtHomeClient.FreeAtHome.constructor | src/main/java/de/hasait/fathome/FreeAtHome.java:113-122 | Default factories (four fid names and the scene function id) and the sensor processor; a fresh connection that has sent nothing; a fresh empty project |
| FreeAtHomeClient.FreeAtHome.RegisterChannelFactoryForFidName | src/main/java/de/hasait/fathome/FreeAtHome.java:229-231 | The factory is stored under the fid name, replacing an earlier one; nothing else changes |
| FreeAtHomeClient.FreeAtHome.RegisterChannelFactoryForFunctionId | src/main/java/de/hasait/fathome/FreeAtHome.java:233-235 | The factory is stored under the function id, replacing an earlier one; nothing else changes |
| FreeAtHomeClient.FreeAtHome.RegisterDeviceProcessor | src/main/java/de/hasait/fathome/FreeAtHome.java:237-239 | The processor is appended to the processors |
| FreeAtHomeClient.FreeAtHome.ChannelFactory | src/main/java/de/hasait/fathome/FreeAtHome.java:98-104 | The new channel's kind is that of the factory GetChannelFactory selects, else unknown; it is registered under its id |
| FreeAtHomeClient.FreeAtHome.GetChannel | src/main/java/de/hasait/fathome/FreeAtHome.java:208-211 | A null name throws; otherwise the named channel when it exists and is an instance of the requested class, else null |
| FreeAtHomeClient.FreeAtHome.LoadAll | src/main/java/de/hasait/fathome/FreeAtHome.java:241-251 | getAll is sent; a null reply keeps the project; otherwise loading throws what LoadFailure says and keeps the old project, or a fresh project replaces it holding the reply's sysap and config values, strings, functions, floors, rooms, devices and channels as ProjectLoaded states, with each device under its own serial number and its channels under their ids |
| FreeAtHomeClient.FreeAtHome.Reload | src/main/java/de/hasait/fathome/FreeAtHome.java:244-250 | Loading throws what LoadFailure says and keeps the project, or the fresh loaded project replaces it |
| FreeAtHomeClient.LoadProject | src/main/java/de/hasait/fathome/FreeAtHome.java:245-248 | A fresh project on the connection; on success every section is folded from nothing and the device index is consistent |
| FreeAtHomeClient.ReRegisteredFidNameReplaces | src/main/java/de/hasait/fathome/FreeAtHome.java:229-231 | Registering a fid name twice keeps only the later factory |
| FreeAtHomeClient.ReRegisteredFunctionIdReplaces | src/main/java/de/hasait/fathome/FreeAtHome.java:233-235 | Registering a function id twice keeps only the later factory |
| FreeAtHomeClient.DimmerIsSwitch | src/main/java/de/hasait/fathome/FreeAtHome.java:208-227 | A name getDimmer finds is also found by getSwitch, and getChannel(name, AbstractFahChannel) is the indexed channel |
| XmlProcessor.FindKVFirst | src/main/java/de/hasait/fathome/project/FahXmlProcessor.java:103-105 | Null when no entry has the name; otherwise the first named entry's value |
| XmlProcessor.FindKVNone | src/main/java/de/hasait/fathome/project/FahXmlProcessor.java:103-105 | Null when no entry has the name |
| XmlProcessor.FindKVAt | src/main/java/de/hasait/fathome/project/FahXmlProcessor.java:103-105 | The value of the first entry with the name |
| XmlProcessor.FindKVFirstWins | src/main/java/de/hasait/fathome/project/FahXmlProcessor.java:103-105 | Entries after the first named one never change the answer |
| XmlProcessor.ParseIdNull | src/main/java/de/hasait/fathome/project/FahXmlProcessor.java:107-109 | parseId(null) is null and unboxing it throws NullPointerException |
| XmlProcessor.ParseIdPresent | src/main/java/de/hasait/fathome/project/FahXmlProcessor.java:107-109 | A present id is Integer.parseInt base 16, with its NumberFormatException |
| XmlProcessor.ParseIdHex | src/main/java/de/hasait/fathome/project/FahXmlProcessor.java:107-109 | A hex digit string parses to its value |
| XmlProcessor.FirstValue | src/main/java/de/hasait/fathome/project/FahXmlProcessor.java:94 | The first value, null exactly when there is none |
| XmlProcessor.ApplyDataPointsAppend | src/main/java/de/hasait/fathome/project/FahXmlProcessor.java:93-96 | Applying data point entries in two batches equals applying them at once |
| XmlProcessor.LastDataPointWins | src/main/java/de/hasait/fathome/project/FahXmlProcessor.java:93-96 | The last entry for a data point decides: its first value is cached, or the data point is removed when it has no value |
| XmlProcessor.UnlistedDataPointKept | src/main/java/de/hasait/fathome/project/FahXmlProcessor.java:93-96 | A data point no entry names keeps its value |
| XmlProcessor.SetDataPoints | src/main/java/de/hasait/fathome/project/FahXmlProcessor.java:72-75 | The loop leaves the cache as the entries applied in order |
| XmlProcessor.PutValuesUnnamedKept | src/main/java/de/hasait/fathome/project/FahXmlProcessor.java:84-86 | A name no value entry carries keeps its value |
| XmlProcessor.PutValuesLastWins | src/main/java/de/hasait/fathome/project/FahXmlProcessor.java:84-86 | The last value entry with a name decides that name's value |
| XmlProcessor.ProcessSysapValues | src/main/java/de/hasait/fathome/project/FahXmlProcessor.java:36 | Values are stored in order until an entry without a name throws NullPointerException |
| XmlProcessor.ProcessConfigValues | src/main/java/de/hasait/fathome/project/FahXmlProcessor.java:37 | Values are stored in order until an entry without a name throws NullPointerException |
| XmlProcessor.MergedChannelUpdates | src/main/java/de/hasait/fathome/project/FahXmlProcessor.java:90-98 | A channel's merged data points are its old ones with every update for its id applied in order |
| XmlProcessor.UpdateDeviceChannels | src/main/java/de/hasait/fathome/project/FahXmlProcessor.java:90-98 | Each channel of the device gets the updates for its id, in order; only the channels' data point caches change, their other fields are untouched |
| XmlProcessor.UpdateChannel | src/main/java/de/hasait/fathome/project/FahXmlProcessor.java:91-97 | One update entry changes only the channel with its id, if any; only the channels' data point caches change, their other fields are untouched |
| XmlProcessor.UpdateFoundChannel | src/main/java/de/hasait/fathome/project/FahXmlProcessor.java:93-96 | The found channel gets the entry's data points; the others are unchanged |
| XmlProcessor.MergedUnlisted | src/main/java/de/hasait/fathome/project/FahXmlProcessor.java:91-92 | An entry for an id no channel has changes nothing |
| XmlProcessor.ProcessUpdateXml | src/main/java/de/hasait/fathome/project/FahXmlProcessor.java:82-101 | Sysap values are stored up to the first nameless one and devices merged up to the first entry without a serial number; NullPointerException exactly when either exists; every channel gets the updates for its device and id; unknown devices are skipped; only the sysap values and the channels' data point caches change |
| XmlProcessor.MergeDevices | src/main/java/de/hasait/fathome/project/FahXmlProcessor.java:87-100 | Devices are merged up to the first entry without a serial number, which throws NullPointerException; every channel gets the updates for its device and id; unknown devices are skipped; only the channels' data point caches change, their other fields are untouched |
| XmlProcessor.MergeDeviceAt | src/main/java/de/hasait/fathome/project/FahXmlProcessor.java:87-100 | One more entry merges its updates, or throws when it has no serial number; only the channels' data point caches change, their other fields are untouched |
| XmlProcessor.MergeDevice | src/main/java/de/hasait/fathome/project/FahXmlProcessor.java:88-99 | No serial number: NullPointerException; otherwise each channel gets that entry's updates for its device and id; only the channels' data point caches change, their other fields are untouched |
| XmlProcessor.UpdateDevice | src/main/java/de/hasait/fathome/project/FahXmlProcessor.java:89-99 | A known device's channels get the updates for their ids; only the channels' data point caches change, their other fields are untouched |
| XmlProcessor.IndexStringsFails | src/main/java/de/hasait/fathome/project/FahXmlProcessor.java:38-42 | Succeeds exactly when every entry parses |
| XmlProcessor.IndexStringsLastWins | src/main/java/de/hasait/fathome/project/FahXmlProcessor.java:38-42 | The last entry with an id is the one indexed |
| XmlProcessor.IndexFunctionsFails | src/main/java/de/hasait/fathome/project/FahXmlProcessor.java:43-48 | Succeeds exactly when every entry parses |
| XmlProcessor.FunctionEntryFails | src/main/java/de/hasait/fathome/project/FahXmlProcessor.java:43-48 | An entry fails exactly when functionId or nameId fails, functionId's exception first |
| XmlProcessor.ProcessStrings | src/main/java/de/hasait/fathome/project/FahXmlProcessor.java:38-42 | Throws the first failing entry's exception, otherwise indexes all; other indexes unchanged |
| XmlProcessor.ProcessFunctions | src/main/java/de/hasait/fathome/project/FahXmlProcessor.java:43-48 | Throws the first failing entry's exception, otherwise indexes all; other indexes unchanged |
| XmlProcessor.RoomIndexLastWins | src/main/java/de/hasait/fathome/project/FahXmlProcessor.java:53-57 | Of rooms with the same uid the last one is indexed |
| XmlProcessor.ProcessFloor | src/main/java/de/hasait/fathome/project/FahXmlProcessor.java:49-59 | A missing floor uid or a room without uid is a NullPointerException; otherwise a fresh floor with name, level and fresh empty rooms; the rooms are indexed by uid, then the floor |
| XmlProcessor.ProcessRoom | src/main/java/de/hasait/fathome/project/FahXmlProcessor.java:53-57 | No uid: NullPointerException and no change; otherwise a fresh room on the floor, added to the floor's rooms and indexed under its uid |
| XmlProcessor.ProcessRooms | src/main/java/de/hasait/fathome/project/FahXmlProcessor.java:53-57 | Throws NullPointerException at the first room without uid, otherwise all rooms are created and indexed in order |
| XmlProcessor.ProcessFloors | src/main/java/de/hasait/fathome/project/FahXmlProcessor.java:49-59 | Throws at the first failing floor, otherwise floors and rooms are indexed in order |
| XmlProcessor.ProcessFloorAt | src/main/java/de/hasait/fathome/project/FahXmlProcessor.java:49-59 | One more floor is processed on top of the earlier ones |
| XmlProcessor.ChannelWithoutFunctionIdThrows | src/main/java/de/hasait/fathome/project/FahXmlProcessor.java:68-69 | A channel entry without functionId throws NullPointerException |
| XmlProcessor.ChannelFunctionRegistered | src/main/java/de/hasait/fathome/project/FahXmlProcessor.java:68-69 | A hex functionId registered in the project gives that function |
| XmlProcessor.ProcessChannel | src/main/java/de/hasait/fathome/project/FahXmlProcessor.java:67-77 | Throws exactly when the functionId fails, with no change; otherwise a fresh channel of the factory's kind with its function, displayName and the first value of each input and output data point, registered under its id, added to the project and indexed by name when named |
| XmlProcessor.ChannelIdIndexLastWins | src/main/java/de/hasait/fathome/project/FahXmlProcessor.java:70 | Of channels with the same id the last one is kept by the device |
| XmlProcessor.ChannelIdIndexKeys | src/main/java/de/hasait/fathome/project/FahXmlProcessor.java:70 | The device's channel ids are exactly the entries' ids |
| XmlProcessor.UnnamedChannelsNotIndexed | src/main/java/de/hasait/fathome/project/FahXmlProcessor.java:71-76 | Channels without displayName leave the name index unchanged |
| XmlProcessor.ProcessChannels | src/main/java/de/hasait/fathome/project/FahXmlProcessor.java:67-77 | The first failing channel's exception, or all channels loaded |
| XmlProcessor.ProcessChannelAt | src/main/java/de/hasait/fathome/project/FahXmlProcessor.java:67-77 | One more channel entry adds that channel only |
| XmlProcessor.DeviceRoomAsWritten | src/main/java/de/hasait/fathome/project/FahXmlProcessor.java:65-66 | Throws exactly when there is no room attribute; otherwise RoomFor |
| XmlProcessor.RoomlessDeviceThrows | src/main/java/de/hasait/fathome/project/FahXmlProcessor.java:65-66 | A concrete device entry without a room throws |
| XmlProcessor.RoomFor | src/main/java/de/hasait/fathome/project/FahXmlProcessor.java:65-66 | Without a room attribute the device gets no room; otherwise the room indexed under the uid, or none |
| XmlProcessor.RoomForAgreesWhenNamed | src/main/java/de/hasait/fathome/project/FahXmlProcessor.java:65-66 | For a device with a room attribute the corrected lookup and the code as written agree |
| XmlProcessor.DeviceFailure | src/main/java/de/hasait/fathome/project/FahXmlProcessor.java:60-79 | None exactly when nameId, functionId and every channel functionId parse and the serial number is present; a nameId failure comes first |
| XmlProcessor.EntryHeader | src/main/java/de/hasait/fathome/project/FahXmlProcessor.java:61-66 | Throws exactly when nameId or functionId fails; the header keeps the serial number and has no device id |
| XmlProcessor.ProcessDevice | src/main/java/de/hasait/fathome/project/FahXmlProcessor.java:60-79 | Throws DeviceFailure; otherwise a fresh device built from the entry, in its room's device set, with its channels loaded, indexed by serial number and belonging to the project |
| XmlProcessor.CompleteDevice | src/main/java/de/hasait/fathome/project/FahXmlProcessor.java:67-79 | A channel failure first, then a missing serial number is NullPointerException; otherwise the channels are loaded and the device is added |
| XmlProcessor.AddLoadedDevice | src/main/java/de/hasait/fathome/project/FahXmlProcessor.java:78 | NullPointerException exactly when the serial number is missing, with no change; otherwise indexed under its serial number; the processors change nothing |
| XmlProcessor.BuildDevice | src/main/java/de/hasait/fathome/project/FahXmlProcessor.java:61-66 | EntryHeader's failure; otherwise a fresh device built from the entry and placed in its room |
| XmlProcessor.NewDevice | src/main/java/de/hasait/fathome/project/FahXmlProcessor.java:61-66 | A fresh device with the header from the entry (type from nameId, function from functionId, displayName, room), added to its room's devices |
| XmlProcessor.RunProcessorsOnLoaded | src/main/java/de/hasait/fathome/FreeAtHome.java:247 | On a freshly loaded device, which has no device id, the processors change nothing |
| ProjectLoad.DevicesFailure | src/main/java/de/hasait/fathome/project/FahXmlProcessor.java:60-79 | None exactly when every entry succeeds; otherwise the first failing entry's exception |
| ProjectLoad.DeviceIndexLastWins | src/main/java/de/hasait/fathome/project/FahXmlProcessor.java:78 | Of devices with the same serial number the last one is indexed |
| ProjectLoad.PlacedAdds | src/main/java/de/hasait/fathome/project/FahXmlProcessor.java:65-66 | A room's device set after loading is its old set plus the loaded devices placed in it |
| ProjectLoad.DeviceBuiltRoom | src/main/java/de/hasait/fathome/project/FahXmlProcessor.java:65-66 | A built device's room is RoomFor of its entry |
| ProjectLoad.PlacedInNamed | src/main/java/de/hasait/fathome/project/FahXmlProcessor.java:65-66 | A loaded device is placed in a room exactly when its entry's room resolves to that room |
| ProjectLoad.PlacedInOthers | src/main/java/de/hasait/fathome/project/FahXmlProcessor.java:65-66 | A device that was not loaded is never placed |
| ProjectLoad.ProcessDevices | src/main/java/de/hasait/fathome/project/FahXmlProcessor.java:60-79 | Throws DevicesFailure; otherwise all devices are loaded and indexed and each room's set is Placed |
| ProjectLoad.ProcessDeviceNext | src/main/java/de/hasait/fathome/project/FahXmlProcessor.java:60-79 | One more device is loaded and joined to its room |
| ProjectLoad.ProcessDeviceAt | src/main/java/de/hasait/fathome/project/FahXmlProcessor.java:60-79 | One more device is loaded and joined to its room |
| ProjectXml.DefinitionsFailureWellFormed | src/main/java/de/hasait/fathome/project/FahXmlProcessor.java:36-48 | No failure exactly when the definitions are well-formed |
| ProjectXml.LayoutFailureWellFormed | src/main/java/de/hasait/fathome/project/FahXmlProcessor.java:49-79 | No failure exactly when the layout is well-formed |
| ProjectXml.LoadFailureWellFormed | src/main/java/de/hasait/fathome/project/FahXmlProcessor.java:34-80 | No failure exactly when the document is well-formed |
| ProjectXml.ProcessValues | src/main/java/de/hasait/fathome/project/FahXmlProcessor.java:36-37 | NullPointerException exactly when there is a nameless sysap or config value; otherwise both are stored |
| ProjectXml.ProcessCatalog | src/main/java/de/hasait/fathome/project/FahXmlProcessor.java:38-48 | The strings' failure, then missing definitions as NullPointerException, then the functions' failure; otherwise both are indexed; other indexes unchanged |
| ProjectXml.ProcessDefinitions | src/main/java/de/hasait/fathome/project/FahXmlProcessor.java:36-48 | Throws exactly DefinitionsFailure; on success sysap and config values, strings and functions are as folded |
| ProjectXml.ProcessDevicesOnFloors | src/main/java/de/hasait/fathome/project/FahXmlProcessor.java:60-79 | Throws exactly the devices' failure; on success devices and channels are as folded |
| ProjectXml.ProcessLayout | src/main/java/de/hasait/fathome/project/FahXmlProcessor.java:49-79 | Throws exactly LayoutFailure; on success floors, rooms, devices and channels are as folded |
| ProjectXml.ProcessProjectXml | src/main/java/de/hasait/fathome/project/FahXmlProcessor.java:34-80 | Throws exactly LoadFailure; on success sysap and config values, strings, functions, floors, rooms, devices and channels are as folded |
| ProjectXml.LayoutConsistent | src/main/java/de/hasait/fathome/project/FahXmlProcessor.java:60-79 | After a layout is loaded into a project that had no devices, each indexed device sits under its own serial number and keys its channels by their own ids, each channel belonging to that device |
| ProjectLoad.DeviceIndexConsistent | src/main/java/de/hasait/fathome/project/FahProject.java:99-102 | Adding loaded devices to a consistent device index keeps it consistent: every device under its own serial number, with its channels keyed by id |
| ProjectLoad.ChannelIdIndexKeyed | src/main/java/de/hasait/fathome/project/FahDevice.java:93-95 | A loaded device's channel map holds each channel under its own id, and every channel in it belongs to the device |
| ProjectParser.NewWalker | src/main/java/de/hasait/fathome/project/FahProjectParser.java:95-104 | A fresh walker with exactly the one tag handler |
| ProjectParser.NewProjectContentWalker | src/main/java/de/hasait/fathome/project/FahProjectParser.java:37-177 | A fresh walker with the handlers of the project element's children |
| ProjectParser.NewProjectWalker | src/main/java/de/hasait/fathome/project/FahProjectParser.java:34-178 | A fresh walker whose only tag is the project element |
| ProjectParser.DeviceTagsIn | src/main/java/de/hasait/fathome/project/FahProjectParser.java:116-172 | The device walker's handlers only act on the device in scope |
| ProjectParser.ProjectTagsIn | src/main/java/de/hasait/fathome/project/FahProjectParser.java:34-178 | Every handler of the project walker acts within the top scope |
| ProjectParser.WalkCallsIn | src/main/java/de/hasait/fathome/util/xpp/XppWalker.java:37-61 | A walk only calls handlers of its own walker's scope |
| ProjectParser.ApplyEffect | src/main/java/de/hasait/fathome/project/FahProject.java:73-114 | The effect of addPart, addSysap and addConfig on the project's tables |
| ProjectParser.SysapEffectsKeepParts | src/main/java/de/hasait/fathome/project/FahProject.java:112-114 | Sysap and config values never change the indexes |
| ProjectParser.OnValue | src/main/java/de/hasait/fathome/project/FahProjectParser.java:41-45 | A text failure propagates with no effect; otherwise the sysap value is recorded |
| ProjectParser.OnVar | src/main/java/de/hasait/fathome/project/FahProjectParser.java:50-54 | A text failure propagates with no effect; otherwise the config value is recorded |
| ProjectParser.OnString | src/main/java/de/hasait/fathome/project/FahProjectParser.java:59-65 | A nameId failure is a NumberFormatException; otherwise the string is recorded under its id |
| ProjectParser.OnFunction | src/main/java/de/hasait/fathome/project/FahProjectParser.java:72-80 | A function with its functionId, fid name and the string for its nameId is recorded |
| ProjectParser.OnRoom | src/main/java/de/hasait/fathome/project/FahProjectParser.java:97-103 | A fresh room on the floor with uid and name is added to the floor and the project |
| ProjectParser.RunFloor | src/main/java/de/hasait/fathome/project/FahProjectParser.java:95-104 | The room callbacks run in order until one throws, and its exception is returned; each callback that ran adds one room of this floor whose uid is its uid attribute, and the project's tables are those rooms applied in order |
| ProjectParser.RoomsAddedSnoc | src/main/java/de/hasait/fathome/project/FahProjectParser.java:97-103 | One more room callback adds one more room of the floor, with the callback's uid |
| ProjectParser.AddFloor | src/main/java/de/hasait/fathome/project/FahProjectParser.java:93 | addPart of a floor: a missing uid is a NullPointerException and leaves the tables; otherwise the floor is indexed under its uid; rooms are not touched |
| ProjectParser.FloorElementFailure | src/main/java/de/hasait/fathome/project/FahProjectParser.java:86-105 | A floor element fails with NumberFormatException for a bad level, then NullPointerException for a missing uid, then the first failing room callback, then the walk's own failure |
| ProjectParser.NewFloor | src/main/java/de/hasait/fathome/project/FahProjectParser.java:87-92 | A level failure is a NumberFormatException; otherwise a fresh floor with uid, level and name |
| ProjectParser.OnFloor | src/main/java/de/hasait/fathome/project/FahProjectParser.java:86-105 | Throws what the floor element's failure says; a bad level adds nothing; otherwise a fresh floor with uid, level and name is added first, and, when it has a uid, one room per room callback that ran, each on this floor with its uid |
| ProjectParser.OnDeviceAttribute | src/main/java/de/hasait/fathome/project/FahProjectParser.java:118-127 | displayName sets the name; room moves the device into the room found for the uid: the room it leaves loses exactly the device, the room it joins gains it, every other room keeps its devices, and other attributes touch no room; a text failure propagates |
| ProjectParser.OnChannelAttribute | src/main/java/de/hasait/fathome/project/FahProjectParser.java:137-150 | displayName sets the name; functionId sets the function found for the hex id or throws NumberFormatException; other keys are ignored |
| ProjectParser.OnDataPoint | src/main/java/de/hasait/fathome/project/FahProjectParser.java:153-158 | A missing i is a NullPointerException; otherwise the id is added to the inputs |
| ProjectParser.RunChannel | src/main/java/de/hasait/fathome/project/FahProjectParser.java:135-160 | The channel's callbacks run in order until one throws, and its exception is returned; after the callbacks that completed, the name is the last displayName attribute's text, the function is the one the last parsable functionId attribute names, and the inputs gained exactly the i of each dataPoint |
| ProjectParser.ChannelStep | src/main/java/de/hasait/fathome/project/FahProjectParser.java:136-158 | One callback inside a channel: its exception is ChannelCallFailure; a failure changes nothing; a displayName attribute sets the name, a functionId attribute with a hex text sets the function looked up by that id, a dataPoint with an i adds it to the inputs, and nothing else changes |
| ProjectParser.LastAttributeSnoc | src/main/java/de/hasait/fathome/project/FahProjectParser.java:118-149 | One more callback: an attribute callback with that name and text sets the last value; any other callback keeps it |
| ProjectParser.DataPointIdsSnoc | src/main/java/de/hasait/fathome/project/FahProjectParser.java:153-158 | One more callback adds the i of a dataPoint that has one, and nothing otherwise |
| ProjectParser.CompleteChannel | src/main/java/de/hasait/fathome/project/FahProjectParser.java:162-169 | A nameless channel takes the device's name; the channel is added to the project under its name |
| ProjectParser.OnChannel | src/main/java/de/hasait/fathome/project/FahProjectParser.java:131-170 | Throws what ChannelFailure says, adding nothing on failure; a missing i adds no channel; otherwise a fresh plain channel of the device registered under its id, and on success it is added to the project under its last displayName or else the device's name, with the function of its last functionId and the ids of its data points |
| ProjectParser.ChannelsAddedSnoc | src/main/java/de/hasait/fathome/project/FahProjectParser.java:128-171 | One more device callback: a channel callback adds exactly one channel effect, named after the device's name at that point when it has none of its own; any other callback adds none |
| ProjectParser.ChannelsAddedOf | src/main/java/de/hasait/fathome/project/FahProjectParser.java:128-171 | Every effect the channel callbacks add is a channel of this device, and no channel is added without a channel callback |
| ProjectParser.RunDevice | src/main/java/de/hasait/fathome/project/FahProjectParser.java:116-172 | The device's callbacks run in order until one throws, and its exception is returned; the callbacks that completed add the channels ChannelsAdded names, the name is the last displayName attribute and the room the one the last room attribute names; the type and the room index stay |
| ProjectParser.DeviceStep | src/main/java/de/hasait/fathome/project/FahProjectParser.java:117-171 | One device callback: its exception is DeviceCallFailure; a failure adds nothing and keeps name and room; otherwise the channels and attributes seen so far extend by this callback |
| ProjectParser.DeviceAttributesSnoc | src/main/java/de/hasait/fathome/project/FahProjectParser.java:118-127 | One more attribute callback: displayName sets the name; room sets the room to the one indexed under the text, or null; others keep both |
| ProjectParser.NewDevice | src/main/java/de/hasait/fathome/project/FahProjectParser.java:111-114 | A nameId failure is a NumberFormatException; otherwise a fresh device with serial number and type, no room and no channels |
| ProjectParser.OnDevice | src/main/java/de/hasait/fathome/project/FahProjectParser.java:110-175 | Throws what the device element's failure says; a bad nameId adds nothing; otherwise a fresh device with the serial number and the type for its nameId, whose channels, name and room are what its completed callbacks set, and whose part is added after its channels only when its content did not fail |
| ProjectParser.DeviceElementFailure | src/main/java/de/hasait/fathome/project/FahProjectParser.java:110-175 | A device element fails with NumberFormatException for a bad nameId, then the first failing callback, then the walk's failure, then NullPointerException for a missing serial number |
| ProjectParser.AddDevice | src/main/java/de/hasait/fathome/project/FahProjectParser.java:174 | addPart of a device: the device belongs to the project; a missing serial number is a NullPointerException that leaves the indexes; otherwise the device is indexed under it |
| ProjectParser.CompleteDevice | src/main/java/de/hasait/fathome/project/FahProjectParser.java:116-174 | The device's walk then its part: the first failing callback, else the walk's failure, else NullPointerException for a missing serial number; the channels, name and room as the completed callbacks set them; the device part is added only when the content did not fail |
| ProjectParser.RunProject | src/main/java/de/hasait/fathome/project/FahProjectParser.java:34-178 | The top-level callbacks run in order until one throws, whose exception is returned; each callback that ran adds what ProjectCallEffects names for the tables the earlier callbacks left, and the project's tables are all of it applied in order |
| ProjectParser.ProjectStep | src/main/java/de/hasait/fathome/project/FahProjectParser.java:41-175 | One top-level callback: its exception is ProjectCallFailure and its effects are what ProjectCallEffects names |
| ProjectParser.ElementStep | src/main/java/de/hasait/fathome/project/FahProjectParser.java:86-175 | A floor or device callback: its exception is ProjectCallFailure and its effects are what ProjectCallEffects names |
| ProjectParser.EachCallEffectsSnoc | src/main/java/de/hasait/fathome/project/FahProjectParser.java:34-178 | One more callback extends the per-callback effects, and the effect log by its effects |
| ProjectParser.Rethrown | src/main/java/de/hasait/fathome/project/FahProjectParser.java:181-187 | XmlPullParserException and IOException are wrapped in RuntimeException; other outcomes pass unchanged |
| ProjectParser.Parse | src/main/java/de/hasait/fathome/project/FahProjectParser.java:33-188 | parse over the document's events: the walk's callbacks run in order until one throws, each adding what ProjectCallEffects names; the outcome is the first callback exception, else the walk's failure, with XmlPullParserException and IOException wrapped in RuntimeException |
| ProjectParser.WalkOutcome | src/main/java/de/hasait/fathome/project/FahProjectParser.java:181-187 | Ok exactly when no callback throws and the walk itself did not fail |
| ProjectParser.ExampleProjectWalk | src/main/java/de/hasait/fathome/project/FahProjectParser.java:56-82 | Walking the document with one string and one function makes the string callback, then the function callback, and ends cleanly |
| ProjectParser.ExampleIds | src/main/java/de/hasait/fathome/project/FahProjectParser.java:60-75 | The example's hex ids parse (nameId a is 10, functionId 7 is 7) and neither callback throws |
| ProjectParser.ExampleStringEffects | src/main/java/de/hasait/fathome/project/FahProjectParser.java:59-65 | The example's string callback adds string 10 with its text |
| ProjectParser.ExampleFunctionEffects | src/main/java/de/hasait/fathome/project/FahProjectParser.java:72-80 | The example's function callback adds function 7 with its fid name and the string indexed under its nameId, if any |
| ProjectParser.ExampleCallsEffects | src/main/java/de/hasait/fathome/project/FahProjectParser.java:56-82 | Both example callbacks run; afterwards string 10 is indexed and function 7 carries it as its name, since the string is added before the function looks it up |
| ProjectParser.ExampleProjectParsed | src/main/java/de/hasait/fathome/project/FahProjectParser.java:33-188 | Whatever parse leaves for the example document: it succeeds, string 10 holds the text and function 7 is labelled with that string |
| Xpp.Advance | src/main/java/de/hasait/fathome/util/xpp/XppWalker.java:41 | next() yields the next event; past the end it throws |
| Xpp.ReadText | src/main/java/de/hasait/fathome/project/FahProjectParser.java:43 | XmlPullParserException on failure; a success ends just after an end tag and moves at most two events |
| Xpp.AttributeValue | src/main/java/de/hasait/fathome/project/FahProjectParser.java:42 | Null exactly when no attribute has the name; otherwise the value of an attribute with it |
| Xpp.PullParser.constructor | src/main/java/de/hasait/fathome/project/FahProjectParser.java:182-183 | A new parser stands before the first event |
| Xpp.PullParser.Next | src/main/java/de/hasait/fathome/util/xpp/XppWalker.java:41 | As Advance: the next event and the cursor one further; a failure leaves the cursor |
| Xpp.PullParser.NextText | src/main/java/de/hasait/fathome/project/FahProjectParser.java:43 | The method does what ReadText says |
| Xpp.Then | src/main/java/de/hasait/fathome/util/xpp/XppWalker.java:40-60 | A failed first step stays; otherwise the calls are concatenated and the failure is that of the rest |
| Xpp.Walk | src/main/java/de/hasait/fathome/util/xpp/XppWalker.java:37-61 | The cursor only moves forward and stays within the events |
| Xpp.Handle | src/main/java/de/hasait/fathome/util/xpp/XppWalker.java:45-47 | The cursor only moves forward and stays within the events |
| Xpp.ParseTags | src/main/java/de/hasait/fathome/util/xpp/XppWalker.java:37-61 | The method's walk equals Walk |
| Xpp.HandleTag | src/main/java/de/hasait/fathome/util/xpp/XppWalker.java:45-47 | The method's handling equals Handle |
| Xpp.XppWalker.constructor | src/main/java/de/hasait/fathome/util/xpp/XppWalker.java:35 | A new walker has no tags |
| Xpp.XppWalker.PutTag | src/main/java/de/hasait/fathome/util/xpp/XppWalker.java:63-66 | The handler is stored under the tag, replacing an earlier one, and the walker is returned |
| Xpp.XppWalker.AsHandler | src/main/java/de/hasait/fathome/util/xpp/XppWalker.java:31 | A walker is itself a handler that walks the element's content |
| Xpp.XppWalker.Parse | src/main/java/de/hasait/fathome/util/xpp/XppWalker.java:37-61 | The method walks as Walk says with the walker's tags |
| Xpp.TextContent | src/main/java/de/hasait/fathome/project/FahProjectParser.java:43 | Ok exactly when there are no children or a single text node; otherwise XmlPullParserException |
| Xpp.WalkDocument | src/main/java/de/hasait/fathome/util/xpp/XppWalker.java:57-58 | Walking a serialized document makes exactly the calls of the tree dispatch |
| Xpp.WalkElementContent | src/main/java/de/hasait/fathome/util/xpp/XppWalker.java:38-55 | The content walk is DispatchAll of the children and ends right after the end tag at the parent's level |
| Xpp.NodeWalk | src/main/java/de/hasait/fathome/util/xpp/XppWalker.java:40-59 | A single node's events are consumed exactly |
| Xpp.ElementWalk | src/main/java/de/hasait/fathome/util/xpp/XppWalker.java:43-50 | A registered element's handler is called and its content consumed |
| Xpp.NodesWalk | src/main/java/de/hasait/fathome/util/xpp/XppWalker.java:40-59 | A sequence of nodes is walked node by node |
| Xpp.PassThroughWalk | src/main/java/de/hasait/fathome/util/xpp/XppWalker.java:43-50 | Inside an unregistered element the walker still dispatches the registered tags of its children |
| Xpp.WalkPastEndTag | src/main/java/de/hasait/fathome/util/xpp/XppWalker.java:52-55 | An end tag deeper than the start level does not end the walk |
| Xpp.ContentWalk | src/main/java/de/hasait/fathome/util/xpp/XppWalker.java:52-55 | The walk of an element's content stops at its end tag |
| Xpp.TextWalk | src/main/java/de/hasait/fathome/project/FahProjectParser.java:43 | Reading an element's text consumes exactly its text and end tag |
| HttpUtil.IndexOf | src/main/java/de/hasait/fathome/util/http/HttpUtil.java:109 | indexOf: -1 exactly when the character is absent; otherwise its first position |
| HttpUtil.Pieces | src/main/java/de/hasait/fathome/util/http/HttpUtil.java:107 | Splitting yields at least one piece |
| HttpUtil.DropTrailingEmpty | src/main/java/de/hasait/fathome/util/http/HttpUtil.java:107 | A prefix that ends in a non-empty piece; only empty pieces are dropped |
| HttpUtil.ParseHeaderLine | src/main/java/de/hasait/fathome/util/http/HttpUtil.java:109-114 | Ok exactly when the first ':' is past position 0; otherwise RuntimeException "Invalid header: " + line |
| HttpUtil.HeaderLineSplits | src/main/java/de/hasait/fathome/util/http/HttpUtil.java:109-114 | The name is non-empty without ':', and line == name + ":" + value with the value untrimmed |
| HttpUtil.ParseHeaders | src/main/java/de/hasait/fathome/util/http/HttpUtil.java:105-119 | Equals HeadersOf of the split on \r?\n |
| HttpUtil.HeadersOfValid | src/main/java/de/hasait/fathome/util/http/HttpUtil.java:108-116 | When all lines are valid, one header per line, in order |
| HttpUtil.HeadersOfFirstInvalid | src/main/java/de/hasait/fathome/util/http/HttpUtil.java:110-112 | The first invalid line's exception |
| HttpUtil.ParseLine | src/main/java/de/hasait/fathome/util/http/HttpUtil.java:113-114 | A rendered header line parses back to its header |
| HttpUtil.PiecesRender | src/main/java/de/hasait/fathome/util/http/HttpUtil.java:107 | Splitting rendered lines gives back the lines |
| HttpUtil.SplitLinesOfPieces | src/main/java/de/hasait/fathome/util/http/HttpUtil.java:107 | split("\r?\n") of a block equals its pieces without trailing empty ones |
| HttpUtil.SplitRender | src/main/java/de/hasait/fathome/util/http/HttpUtil.java:107 | Splitting the rendered lines of a header block gives its lines |
| HttpUtil.HeadersOfLines | src/main/java/de/hasait/fathome/util/http/HttpUtil.java:105-119 | Lines rendered from headers parse back to those headers |
| HttpUtil.HeadersRoundTrip | src/main/java/de/hasait/fathome/util/http/HttpUtil.java:105-119 | parseHeaders of a rendered header block gives back the headers |
| HttpUtil.EmptyBlockThrows | src/main/java/de/hasait/fathome/util/http/HttpUtil.java:107-111 | "" is a RuntimeException "Invalid header: " |
| HttpUtil.LoneLineFeedIsEmpty | src/main/java/de/hasait/fathome/util/http/HttpUtil.java:107 | "\n" yields no headers |
| HttpUtil.StatusFailure | src/main/java/de/hasait/fathome/util/http/HttpUtil.java:89-98 | None exactly for 200; 408 and 504 are IOException "Timeout n"; 500 is IOException "Internal Server Error n"; others RuntimeException "Failed n" |
| HttpUtil.FirstHeader | src/main/java/de/hasait/fathome/util/http/HttpUtil.java:127 | The first header whose name equalsIgnoreCase the given one, or null |
| HttpUtil.ContentHandler.Handle | src/main/java/de/hasait/fathome/util/http/HttpUtil.java:80 | The handler records the content type and body it is given |
| HttpUtil.HandleMultipart | src/main/java/de/hasait/fathome/util/http/HttpUtil.java:73-83 | A null entity: nothing; otherwise deliveries and failure are as HandleEntity |
| HttpUtil.HandleBody | src/main/java/de/hasait/fathome/util/http/HttpUtil.java:75-81 | The entity's content type decides between the multipart path and the single handler call |
| HttpUtil.HandleOnePart | src/main/java/de/hasait/fathome/util/http/HttpUtil.java:126-132 | Bad headers: that exception; no Content-Type: NullPointerException; otherwise the body is handled |
| HttpUtil.ParseMultipart | src/main/java/de/hasait/fathome/util/http/HttpUtil.java:121-135 | The parts are handled in order until one's headers fail, whose exception is thrown |
| HttpUtil.HandlePartsStep | src/main/java/de/hasait/fathome/util/http/HttpUtil.java:125-134 | One more good part adds its handler call only |
| HttpUtil.HandlePartsStopped | src/main/java/de/hasait/fathome/util/http/HttpUtil.java:125-134 | After a part with bad headers no further part is handled |
| HttpUtil.HttpGet | src/main/java/de/hasait/fathome/util/http/HttpUtil.java:85-103 | A status other than 200 throws StatusFailure with the handler untouched; 200 hands the entity to the handler |
| HttpUtil.HandleEntityLeaves | src/main/java/de/hasait/fathome/util/http/HttpUtil.java:73-83 | A well-formed body reaches the handler as its non-multipart pieces in order, without failure |
| HttpUtil.HandlePartsLeaves | src/main/java/de/hasait/fathome/util/http/HttpUtil.java:121-135 | The handler sees the parts' bodies in order |
| HttpUtil.BadHeadersStop | src/main/java/de/hasait/fathome/util/http/HttpUtil.java:126 | A part whose headers fail ends the loop with that exception |

## Left out

- The XMPP connection, the SCRAM and libsodium handshakes on the wire, and the RPC transport: `FahCommunication` is a log of the `setDatapoint` and `getAll` requests sent, and the replies are parameters.
- The JAXB mapping of the project and update documents: documents are datatypes that hold the same attributes and elements.
- The Apache HTTP client, its streams and its `EntityUtils`: a response is its status code and an entity of body bytes and mime type.
- `ContentType.parse` of a part's Content-Type header: a part's body carries the mime type it is handed on with; only the presence of the header is checked.
- `equalsIgnoreCase` in `HttpUtil`: case folding is modelled for ASCII letters only.
- The MAC, digest, Unicode NFKC normalization, bidi tables and Sodium primitives: they are parameters of the model with the lengths and failure conditions the code relies on.
- Logging, thread interruption and concurrency: they change no state the model holds.
- The `IllegalArgumentException` message of `connect` for an unknown user: the suffix listing the known user names is not part of the modelled message.
- Partial state after a load error: `FahXmlProcessor` writes into a fresh project, so `FreeAtHomeClient.FreeAtHome.LoadAll` keeps the old project on failure and the half-filled one is not modelled.
- Settings download, `handleInboundMessage` and presence events of `FreeAtHome`: they depend on XMPP message payloads outside the core.
- `FahXmlProcessor.processProjectXml` is declared with three parameters, while `FreeAtHome.loadAll` passes the device processors as a fourth: the model runs the processors on each device right after it is added to the project.
- `FreeAtHome.getChannelFactory` calls `function.getId()`, which `FahFunction` does not declare: the model uses the function id.
- `FahProject` declares no `getDeviceBySerialNumber`, `setFahSysapValue` or `setFahConfigValue`, although other files call them: they are modelled as the device index lookup and as `addSysap` and `addConfig`.
- The `FahProject` constructor is called with an argument its declaration does not take: the model's constructor takes the communication.
- `FahProject.addPart` checks a `parts` set that nothing ever adds to: the model leaves this guard out, since it never fires.
- The floor class in the project package duplicates the root `FahFloor`: the model uses the root one.
- `XppWalker` handlers run inside the walk in Java: the model records the callbacks a walk makes and applies their effects afterwards, in the same order; malformed XML is an event sequence that ends early.
- XmlProcessor.ProcessDevice: uses the corrected room lookup `XmlProcessor.RoomFor`, so a device entry without a `room` attribute is loaded without a room; the code as written throws NullPointerException there (see Findings, `XmlProcessor.DeviceRoomAsWritten`).
- XmlProcessor.BuildDevice: uses the corrected room lookup `XmlProcessor.RoomFor`, so a device entry without a `room` attribute is loaded without a room; the code as written throws NullPointerException there (see Findings, `XmlProcessor.DeviceRoomAsWritten`).
- XmlProcessor.NewDevice: uses the corrected room lookup `XmlProcessor.RoomFor`, so a device entry without a `room` attribute is loaded without a room; the code as written throws NullPointerException there (see Findings, `XmlProcessor.DeviceRoomAsWritten`).
- XmlProcessor.DeviceFailure: uses the corrected room lookup `XmlProcessor.RoomFor`, so a device entry without a `room` attribute is loaded without a room; the code as written throws NullPointerException there (see Findings, `XmlProcessor.DeviceRoomAsWritten`).
- XmlProcessor.EntryHeader: uses the corrected room lookup `XmlProcessor.RoomFor`, so a device entry without a `room` attribute is loaded without a room; the code as written throws NullPointerException there (see Findings, `XmlProcessor.DeviceRoomAsWritten`).
- ProjectLoad.DevicesFailure: uses the corrected room lookup `XmlProcessor.RoomFor`, so a device entry without a `room` attribute is loaded without a room; the code as written throws NullPointerException there (see Findings, `XmlProcessor.DeviceRoomAsWritten`).
- ProjectLoad.ProcessDevices: uses the corrected room lookup `XmlProcessor.RoomFor`, so a device entry without a `room` attribute is loaded without a room; the code as written throws NullPointerException there (see Findings, `XmlProcessor.DeviceRoomAsWritten`).
- ProjectLoad.ProcessDeviceNext: uses the corrected room lookup `XmlProcessor.RoomFor`, so a device entry without a `room` attribute is loaded without a room; the code as written throws NullPointerException there (see Findings, `XmlProcessor.DeviceRoomAsWritten`).
- ProjectLoad.ProcessDeviceAt: uses the corrected room lookup `XmlProcessor.RoomFor`, so a device entry without a `room` attribute is loaded without a room; the code as written throws NullPointerException there (see Findings, `XmlProcessor.DeviceRoomAsWritten`).
- ProjectXml.LayoutFailureWellFormed: uses the corrected room lookup `XmlProcessor.RoomFor`, so a device entry without a `room` attribute is loaded without a room; the code as written throws NullPointerException there (see Findings, `XmlProcessor.DeviceRoomAsWritten`).
- ProjectXml.LoadFailureWellFormed: uses the corrected room lookup `XmlProcessor.RoomFor`, so a device entry without a `room` attribute is loaded without a room; the code as written throws NullPointerException there (see Findings, `XmlProcessor.DeviceRoomAsWritten`).
- ProjectXml.ProcessDevicesOnFloors: uses the corrected room lookup `XmlProcessor.RoomFor`, so a device entry without a `room` attribute is loaded without a room; the code as written throws NullPointerException there (see Findings, `XmlProcessor.DeviceRoomAsWritten`).
- ProjectXml.ProcessLayout: uses the corrected room lookup `XmlProcessor.RoomFor`, so a device entry without a `room` attribute is loaded without a room; the code as written throws NullPointerException there (see Findings, `XmlProcessor.DeviceRoomAsWritten`).
- ProjectXml.ProcessProjectXml: uses the corrected room lookup `XmlProcessor.RoomFor`, so a device entry without a `room` attribute is loaded without a room; the code as written throws NullPointerException there (see Findings, `XmlProcessor.DeviceRoomAsWritten`).
- FreeAtHomeClient.FreeAtHome.LoadAll: uses the corrected room lookup `XmlProcessor.RoomFor`, so a device entry without a `room` attribute is loaded without a room; the code as written throws NullPointerException there (see Findings, `XmlProcessor.DeviceRoomAsWritten`).
- FreeAtHomeClient.FreeAtHome.Reload: uses the corrected room lookup `XmlProcessor.RoomFor`, so a device entry without a `room` attribute is loaded without a room; the code as written throws NullPointerException there (see Findings, `XmlProcessor.DeviceRoomAsWritten`).
- FreeAtHomeClient.LoadProject: uses the corrected room lookup `XmlProcessor.RoomFor`, so a device entry without a `room` attribute is loaded without a room; the code as written throws NullPointerException there (see Findings, `XmlProcessor.DeviceRoomAsWritten`).
- XmlProcessor.ProcessUpdateXml: the `i` attribute of an update's channel or data point entry is a string, never null; in Java a missing `i` reaches `TreeMap` (`channelsById`, via `getChannel`) or `ConcurrentHashMap` (`dataPointValues`) as a null key and throws NullPointerException, which the model does not produce, so its failure cases leave that NullPointerException out.
- XmlProcessor.MergeDevices: the `i` attribute of an update's channel or data point entry is a string, never null; in Java a missing `i` reaches `TreeMap` (`channelsById`, via `getChannel`) or `ConcurrentHashMap` (`dataPointValues`) as a null key and throws NullPointerException, which the model does not produce, so its failure cases leave that NullPointerException out.
- XmlProcessor.MergeDeviceAt: the `i` attribute of an update's channel or data point entry is a string, never null; in Java a missing `i` reaches `TreeMap` (`channelsById`, via `getChannel`) or `ConcurrentHashMap` (`dataPointValues`) as a null key and throws NullPointerException, which the model does not produce, so its failure cases leave that NullPointerException out.
- XmlProcessor.MergeDevice: the `i` attribute of an update's channel or data point entry is a string, never null; in Java a missing `i` reaches `TreeMap` (`channelsById`, via `getChannel`) or `ConcurrentHashMap` (`dataPointValues`) as a null key and throws NullPointerException, which the model does not produce, so its failure cases leave that NullPointerException out.
- XmlProcessor.UpdateDevice: the `i` attribute of an update's channel or data point entry is a string, never null; in Java a missing `i` reaches `TreeMap` (`channelsById`, via `getChannel`) or `ConcurrentHashMap` (`dataPointValues`) as a null key and throws NullPointerException, which the model does not produce, so its failure cases leave that NullPointerException out.
- XmlProcessor.UpdateDeviceChannels: the `i` attribute of an update's channel or data point entry is a string, never null; in Java a missing `i` reaches `TreeMap` (`channelsById`, via `getChannel`) or `ConcurrentHashMap` (`dataPointValues`) as a null key and throws NullPointerException, which the model does not produce, so its failure cases leave that NullPointerException out.
- XmlProcessor.FindKV: `findAny()` is modelled as the first matching entry, which is what a sequential stream returns in OpenJDK, although the `Stream` API would allow any match (`XmlProcessor.FindKVFirst`, `FindKVAt`, `FindKVFirstWins` rely on this).
- XmlProcessor.FindKVFirst: relies on `findAny()` returning the first matching entry, as OpenJDK's sequential stream does; the `Stream` API would allow any match.
- XmlProcessor.FindKVAt: relies on `findAny()` returning the first matching entry, as OpenJDK's sequential stream does; the `Stream` API would allow any match.
- XmlProcessor.FindKVFirstWins: relies on `findAny()` returning the first matching entry, as OpenJDK's sequential stream does; the `Stream` API would allow any match.
- XmlProcessor.ProcessChannel: the `i` attribute of a channel or data point entry is a string, never null; in Java a missing `i` reaches `TreeMap` (`channelsById`) or `ConcurrentHashMap` (`dataPointValues`) as a null key and throws NullPointerException, which the model does not produce.
- XmlProcessor.SetDataPoints: the `i` attribute of a channel or data point entry is a string, never null; in Java a missing `i` reaches `TreeMap` (`channelsById`) or `ConcurrentHashMap` (`dataPointValues`) as a null key and throws NullPointerException, which the model does not produce.
- XmlProcessor.UpdateChannel: the `i` attribute of a channel or data point entry is a string, never null; in Java a missing `i` reaches `TreeMap` (`channelsById`) or `ConcurrentHashMap` (`dataPointValues`) as a null key and throws NullPointerException, which the model does not produce.
- XmlProcessor.UpdateFoundChannel: the `i` attribute of a channel or data point entry is a string, never null; in Java a missing `i` reaches `TreeMap` (`channelsById`) or `ConcurrentHashMap` (`dataPointValues`) as a null key and throws NullPointerException, which the model does not produce.
- XmlProcessor.ApplyDataPoints: the `i` attribute of a channel or data point entry is a string, never null; in Java a missing `i` reaches `TreeMap` (`channelsById`) or `ConcurrentHashMap` (`dataPointValues`) as a null key and throws NullPointerException, which the model does not produce.
- JavaLang.DigitValue: only the ASCII digits and letters are digits; `Character.digit` also accepts other Unicode digits, so `JavaLang.ParseInt` rejects non-ASCII digit strings that Java would parse.
- JavaLang.StringLess: compares characters as code points; Java's `String.compareTo` compares UTF-16 code units, which order differently for characters outside the Basic Multilingual Plane. `JavaLang.MinKey` and `JavaLang.SortedKeys` inherit this.
- JavaLang.ParseInt: digits are those of `JavaLang.DigitValue`, ASCII only, so a string of other Unicode digits is a NumberFormatException in the model where `Integer.parseInt` would parse it.
- JavaLang.MinKey: the first key is the least by code points, which can differ from the `TreeMap` order by UTF-16 code units for characters outside the Basic Multilingual Plane.
- JavaLang.SortedKeys: the ascending order is by code points, which can differ from the `TreeMap` order by UTF-16 code units for characters outside the Basic Multilingual Plane.
- CryptUtil.Utf8Encode: a string is a sequence of Unicode scalar values, so an unpaired UTF-16 surrogate, which `getBytes(UTF_8)` encodes as '?', cannot occur; the same holds for the passwords `CryptUtil.SaslPrepare` accepts.
- CryptUtil.SaslPrepare: the password is a sequence of Unicode scalar values, so a Java string holding an unpaired surrogate cannot be given to it.
- Project.FahProject.AddPart: one channel class stands for both `project.FahChannel` and `AbstractFahChannel`, so every named channel is indexed by name, where the `instanceof FahChannel` test admits only the project one; `setProject` is recorded only on devices and channels, because floors, rooms, strings and functions keep no project reference in the model.

## Findings

| source | as written | input that shows it | evidently intended | confidence | as-written member | corrected member |
|---|---|---|---|---|---|---|
| src/main/java/de/hasait/fathome/project/FahXmlProcessor.java:65-66 | `getRoomByUid(findKV(attributes, "room"))` passes null to `TreeMap.get`, which throws NullPointerException | a device entry without a `room` attribute | a device without a room is loaded without a room | not executed | XmlProcessor.DeviceRoomAsWritten | XmlProcessor.RoomFor |
