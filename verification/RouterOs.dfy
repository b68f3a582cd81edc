/** The RouterOS command builder (daimon-driver-firewall-routeros lib.rs) and a
    decoder that shows nothing is lost or confused on the command line. */
module RouterOs {
  import opened Wrappers
  import opened Text
  import opened Params
  import opened Json

  /** A capability with exactly the parameters it uses. */
  datatype Command =
    | SystemInfo
    | InterfaceList
    | IpAddresses
    | FilterList
    | AddDropRule(dst: string, src: Option<string>, iface: Option<string>, comment: Option<string>)
    | RemoveRule(selector: string)
    | ImportKey(user: string, file: string)
    | RemoveKey(number: string)

  datatype RouterOsError = UnknownCapability(name: string) | MissingParam(what: string) | BadParam(error: ParamError)

  /** The fixed texts of the command language. */
  datatype Syntax = Syntax(
    system: string, interfaces: string, addresses: string, filters: string,
    add: string, src: string, iface: string, comment: string,
    remove: string, import_: string, file: string, delete: string)

  const ADD := "/ip firewall filter add chain=forward action=drop dst-address="

  const REMOVE := "/ip firewall filter remove [find "

  const IMPORT := "/user ssh-keys import user="

  const DELETE := "/user ssh-keys remove "

  const ROUTEROS := Syntax(
    "/system identity print", "/interface print", "/ip address print", "/ip firewall filter print",
    ADD, " src-address=", " in-interface=", " comment=\"",
    REMOVE, IMPORT, " public-key-file=", DELETE)

  /** What telling the commands apart rests on: an early character in which each
      text differs from those it could be confused with. */
  predicate Distinct(k: Syntax)
  {
    && Writes(k) && Options(k) && ReadsApart(k)
  }

  predicate Writes(k: Syntax)
  {
    && |k.add| > 20 && |k.remove| > 20 && k.add[20] != k.remove[20] && k.add[1] == k.remove[1] == 'i'
    && |k.import_| > 15 && |k.delete| > 15 && k.import_[15] != k.delete[15] && k.import_[1] == k.delete[1] == 'u'
  }

  predicate Options(k: Syntax)
  {
    && |k.src| > 1 && k.src[0] == ' ' && k.src[1] == 's'
    && |k.iface| > 1 && k.iface[0] == ' ' && k.iface[1] == 'i'
    && |k.comment| > 1 && k.comment[0] == ' ' && k.comment[1] == 'c'
    && |k.file| > 0 && k.file[0] == ' '
  }

  predicate ReadsApart(k: Syntax)
  {
    && |k.system| > 1 && k.system[1] == 's' && |k.interfaces| > 2 && k.interfaces[1] == 'i' && k.interfaces[2] == 'n'
    && |k.addresses| > 4 && k.addresses[1] == 'i' && k.addresses[2] == 'p' && k.addresses[4] == 'a'
    && |k.filters| > 4 && k.filters[1] == 'i' && k.filters[2] == 'p' && k.filters[4] == 'f'
    && |k.filters| < |k.remove| < |k.add| && |k.addresses| < |k.remove| && |k.interfaces| < |k.remove|
  }

  lemma FilterWrites()
    ensures |ADD| > 20 && |REMOVE| > 20 && ADD[1] == REMOVE[1] == 'i' && ADD[20] == 'a' && REMOVE[20] == 'r'
  {
  }

  lemma KeyWrites()
    ensures |IMPORT| > 15 && |DELETE| > 15 && IMPORT[1] == DELETE[1] == 'u' && IMPORT[15] == 'i' && DELETE[15] == 'r'
  {
  }

  lemma RouterOsWrites()
    ensures Writes(ROUTEROS)
  {
    FilterWrites();
    KeyWrites();
  }

  lemma RouterOsReads()
    ensures ReadsApart(ROUTEROS)
  {
  }

  lemma RouterOsOptions()
    ensures Options(ROUTEROS)
  {
  }

  lemma RouterOsDistinct()
    ensures Distinct(ROUTEROS)
  {
    RouterOsWrites();
    RouterOsReads();
    RouterOsOptions();
  }

  /** A required string parameter of a class. */
  function Required(p: Json, key: string, class_: ParamClass): Result<string, RouterOsError>
  {
    match GetStr(p, key)
    case None => Err(MissingParam(key))
    case Some(v) => Checked(v, class_)
  }

  function Checked(v: string, class_: ParamClass): Result<string, RouterOsError>
  {
    match Validate(v, class_)
    case Ok(_) => Ok(v)
    case Err(e) => Err(BadParam(e))
  }

  /** An optional one: absent or not a string counts as not given. */
  function Optional(p: Json, key: string, class_: ParamClass): Result<Option<string>, RouterOsError>
  {
    match GetStr(p, key)
    case None => Ok(None)
    case Some(v) => match Validate(v, class_) case Ok(_) => Ok(Some(v)) case Err(e) => Err(BadParam(e))
  }

  function InterpretAdd(p: Json): Result<Command, RouterOsError>
  {
    match Required(p, "dst_address", Cidr)
    case Err(e) => Err(e)
    case Ok(dst) =>
      match Optional(p, "src_address", Cidr)
      case Err(e) => Err(e)
      case Ok(src) =>
        match Optional(p, "in_interface", Identifier)
        case Err(e) => Err(e)
        case Ok(iface) =>
          match Optional(p, "comment", SafeText)
          case Err(e) => Err(e)
          case Ok(comment) => Ok(AddDropRule(dst, src, iface, comment))
  }

  /** Both are looked up before either is validated. */
  function InterpretImport(p: Json): Result<Command, RouterOsError>
  {
    match GetStr(p, "user")
    case None => Err(MissingParam("user"))
    case Some(user) =>
      match GetStr(p, "file")
      case None => Err(MissingParam("file"))
      case Some(file) =>
        match Checked(user, Identifier)
        case Err(e) => Err(e)
        case Ok(_) =>
          match Checked(file, SafeText)
          case Err(e) => Err(e)
          case Ok(_) => Ok(ImportKey(user, file))
  }

  predicate OptionalAdmitted(p: Json, key: string, class_: ParamClass)
  {
    GetStr(p, key).Some? ==> Admits(class_, GetStr(p, key).value)
  }

  /** Which add requests are accepted, whatever else they carry: the destination must
      be there and of the Cidr class, and so must each optional part that is there
      be of its class.  A name of an address list is accepted only when it happens
      to be made of hex digits, dots, colons and slashes in that shape. */
  lemma AddAcceptedIff(p: Json)
    ensures InterpretAdd(p).Ok? <==>
            && GetStr(p, "dst_address").Some? && Admits(Cidr, GetStr(p, "dst_address").value)
            && OptionalAdmitted(p, "src_address", Cidr)
            && OptionalAdmitted(p, "in_interface", Identifier)
            && OptionalAdmitted(p, "comment", SafeText)
  {
  }

  function AddRequest(dst: string): Json
  {
    Obj([Field("dst_address", Str(dst))])
  }

  /** An add request with a destination and nothing else. */
  lemma DestinationAcceptedIff(dst: string)
    ensures InterpretAdd(AddRequest(dst)).Ok? <==>
            && dst != "" && CidrShape(dst)
            && forall i :: 0 <= i < |dst| ==>
                 || '0' <= dst[i] <= '9' || 'a' <= dst[i] <= 'f' || 'A' <= dst[i] <= 'F'
                 || dst[i] == '.' || dst[i] == ':' || dst[i] == '/'
  {
    AddAcceptedIff(AddRequest(dst));
    OnlyDestination(dst);
    CidrCharacters(dst);
  }

  lemma OnlyDestination(dst: string)
    ensures GetStr(AddRequest(dst), "dst_address") == Some(dst)
    ensures forall key :: key != "dst_address" ==> GetStr(AddRequest(dst), key) == None
  {
    assert AddRequest(dst).fields[1..] == [];
    assert forall key :: key != "dst_address" ==> Lookup(AddRequest(dst).fields, key) == None;
  }

  lemma CidrCharacters(s: string)
    ensures AllAllowed(Cidr, s) <==>
            forall i :: 0 <= i < |s| ==>
              || '0' <= s[i] <= '9' || 'a' <= s[i] <= 'f' || 'A' <= s[i] <= 'F'
              || s[i] == '.' || s[i] == ':' || s[i] == '/'
  {
  }

  /** An address-list name of the documentation's kind is rejected at its first letter. */
  lemma AddressListNameRejected()
    ensures InterpretAdd(AddRequest("tiktok-domains")) == Err(BadParam(DisallowedChar('t', Cidr, "tiktok-domains")))
  {
    var dst := "tiktok-domains";
    assert dst[0] == 't' && !Allowed(Cidr, 't');
  }

  datatype Name = Reads(c: Command) | AddName | RemoveName | ImportName | DeleteName | Unknown

  function NameOf(capability: string): Name
  {
    if capability == "network.routeros.system_info" then Reads(SystemInfo)
    else if capability == "network.routeros.interface_list" then Reads(InterfaceList)
    else if capability == "network.routeros.ip_addresses" then Reads(IpAddresses)
    else if capability == "network.routeros.firewall_filter_list" then Reads(FilterList)
    else if capability == "network.routeros.firewall_add_drop_rule" then AddName
    else if capability == "network.routeros.firewall_remove_rule" then RemoveName
    else if capability == "network.routeros.user_ssh_key_import" then ImportName
    else if capability == "network.routeros.user_ssh_key_remove" then DeleteName
    else Unknown
  }

  /** What a request asks for, or the error it deserves. */
  function Interpret(capability: string, params: Option<Json>): Result<Command, RouterOsError>
  {
    match NameOf(capability)
    case Reads(c) => Ok(c)
    case AddName => if params.None? then Err(MissingParam("params")) else InterpretAdd(params.value)
    case RemoveName => if params.None? then Err(MissingParam("params")) else InterpretRemove(params.value)
    case ImportName => if params.None? then Err(MissingParam("params")) else InterpretImport(params.value)
    case DeleteName => if params.None? then Err(MissingParam("params")) else InterpretDelete(params.value)
    case Unknown => Err(UnknownCapability(capability))
  }

  function InterpretRemove(p: Json): Result<Command, RouterOsError>
  {
    match Required(p, "match", Identifier) case Ok(m) => Ok(RemoveRule(m)) case Err(e) => Err(e)
  }

  function InterpretDelete(p: Json): Result<Command, RouterOsError>
  {
    match Required(p, "number", Int) case Ok(n) => Ok(RemoveKey(n)) case Err(e) => Err(e)
  }

  // ----- what each request asks for -----------------------------------------

  /** The reads take no parameters and look at none. */
  lemma ReadsMean(params: Option<Json>)
    ensures Interpret("network.routeros.system_info", params) == Ok(SystemInfo)
    ensures Interpret("network.routeros.interface_list", params) == Ok(InterfaceList)
    ensures Interpret("network.routeros.ip_addresses", params) == Ok(IpAddresses)
    ensures Interpret("network.routeros.firewall_filter_list", params) == Ok(FilterList)
  {
    NameLengths();
  }

  /** The capability names are told apart by their lengths, and two pairs of equal length
      by one character. */
  lemma NameLengths()
    ensures |"network.routeros.system_info"| == 28 && |"network.routeros.interface_list"| == 31
    ensures |"network.routeros.ip_addresses"| == 29 && |"network.routeros.firewall_filter_list"| == 37
    ensures |"network.routeros.firewall_add_drop_rule"| == 39 && |"network.routeros.firewall_remove_rule"| == 37
    ensures |"network.routeros.user_ssh_key_import"| == 36 && |"network.routeros.user_ssh_key_remove"| == 36
    ensures "network.routeros.firewall_filter_list"[26] != "network.routeros.firewall_remove_rule"[26]
    ensures "network.routeros.user_ssh_key_import"[30] != "network.routeros.user_ssh_key_remove"[30]
  {
  }

  lemma WriteNames()
    ensures NameOf("network.routeros.firewall_add_drop_rule") == AddName
    ensures NameOf("network.routeros.firewall_remove_rule") == RemoveName
    ensures NameOf("network.routeros.user_ssh_key_import") == ImportName
    ensures NameOf("network.routeros.user_ssh_key_remove") == DeleteName
  {
    NameLengths();
  }

  /** A drop rule is exactly what the four keys say, each of its class. */
  lemma InterpretAddMeans(p: Json, dst: string, src: Option<string>, iface: Option<string>, comment: Option<string>)
    ensures InterpretAdd(p) == Ok(AddDropRule(dst, src, iface, comment)) <==>
            && InterpretAdd(p).Ok? && GetStr(p, "dst_address") == Some(dst) && GetStr(p, "src_address") == src
            && GetStr(p, "in_interface") == iface && GetStr(p, "comment") == comment
  {
  }

  lemma AddMeans(p: Json, dst: string, src: Option<string>, iface: Option<string>, comment: Option<string>)
    ensures Interpret("network.routeros.firewall_add_drop_rule", Some(p)) == Ok(AddDropRule(dst, src, iface, comment))
            <==>
            && GetStr(p, "dst_address") == Some(dst) && Admits(Cidr, dst)
            && GetStr(p, "src_address") == src && (src.Some? ==> Admits(Cidr, src.value))
            && GetStr(p, "in_interface") == iface && (iface.Some? ==> Admits(Identifier, iface.value))
            && GetStr(p, "comment") == comment && (comment.Some? ==> Admits(SafeText, comment.value))
  {
    WriteNames();
    InterpretAddMeans(p, dst, src, iface, comment);
    AddAcceptedIff(p);
  }

  lemma RemoveMeans(p: Json, selector: string)
    ensures Interpret("network.routeros.firewall_remove_rule", Some(p)) == Ok(RemoveRule(selector)) <==>
            GetStr(p, "match") == Some(selector) && Admits(Identifier, selector)
  {
    WriteNames();
  }

  lemma ImportMeans(p: Json, user: string, file: string)
    ensures Interpret("network.routeros.user_ssh_key_import", Some(p)) == Ok(ImportKey(user, file)) <==>
            && GetStr(p, "user") == Some(user) && Admits(Identifier, user)
            && GetStr(p, "file") == Some(file) && Admits(SafeText, file)
  {
    WriteNames();
  }

  lemma DeleteMeans(p: Json, number: string)
    ensures Interpret("network.routeros.user_ssh_key_remove", Some(p)) == Ok(RemoveKey(number)) <==>
            GetStr(p, "number") == Some(number) && Admits(Int, number)
  {
    WriteNames();
  }

  const NAMES: seq<string> := [
    "network.routeros.system_info", "network.routeros.interface_list", "network.routeros.ip_addresses",
    "network.routeros.firewall_filter_list", "network.routeros.firewall_add_drop_rule",
    "network.routeros.firewall_remove_rule", "network.routeros.user_ssh_key_import",
    "network.routeros.user_ssh_key_remove"]

  /** Any other name is unknown, and each kind of command has its own name, so the four
      lemmas above say which request leads to which command and which are refused. */
  lemma KindOfCommand(capability: string, params: Option<Json>)
    ensures capability !in NAMES <==> Interpret(capability, params) == Err(UnknownCapability(capability))
    ensures Interpret(capability, params).Ok? ==>
              match Interpret(capability, params).value
              case SystemInfo => capability == NAMES[0]
              case InterfaceList => capability == NAMES[1]
              case IpAddresses => capability == NAMES[2]
              case FilterList => capability == NAMES[3]
              case AddDropRule(_, _, _, _) => capability == NAMES[4] && params.Some?
              case RemoveRule(_) => capability == NAMES[5] && params.Some?
              case ImportKey(_, _) => capability == NAMES[6] && params.Some?
              case RemoveKey(_) => capability == NAMES[7] && params.Some?
  {
  }

  // ----- the command line ---------------------------------------------------

  /** The line a command is sent as. */
  function CommandLine(c: Command): string
  {
    match c
    case SystemInfo => "/system identity print"
    case InterfaceList => "/interface print"
    case IpAddresses => "/ip address print"
    case FilterList => "/ip firewall filter print"
    case AddDropRule(dst, src, iface, comment) =>
      "/ip firewall filter add chain=forward action=drop dst-address=" + dst
      + ((if src.Some? then " src-address=" + src.value else "")
         + ((if iface.Some? then " in-interface=" + iface.value else "")
            + (if comment.Some? then " comment=\"" + comment.value + "\"" else "")))
    case RemoveRule(selector) => "/ip firewall filter remove [find " + selector + "]"
    case ImportKey(user, file) => "/user ssh-keys import user=" + user + " public-key-file=" + file
    case RemoveKey(number) => "/user ssh-keys remove " + number
  }

  /** The same over any fixed texts. */
  function Printed(k: Syntax, c: Command): string
  {
    match c
    case SystemInfo => k.system
    case InterfaceList => k.interfaces
    case IpAddresses => k.addresses
    case FilterList => k.filters
    case AddDropRule(dst, src, iface, comment) => k.add + dst + Tail(k, src, iface, comment)
    case RemoveRule(selector) => k.remove + selector + "]"
    case ImportKey(user, file) => k.import_ + user + k.file + file
    case RemoveKey(number) => k.delete + number
  }

  lemma PrintedIsCommandLine(c: Command)
    ensures Printed(ROUTEROS, c) == CommandLine(c)
  {
  }

  // ----- the decoder --------------------------------------------------------

  function UpTo(s: string, c: char): string { s[..Find(s, c)] }

  function From(s: string, c: char): string { s[Find(s, c)..] }

  function TakeOption(s: string, key: string): (Option<string>, string)
  {
    if key <= s then (Some(UpTo(s[|key|..], ' ')), From(s[|key|..], ' ')) else (None, s)
  }

  /** What is left behind the interface: nothing, or a quoted comment to the end. */
  function DecodeComment(k: Syntax, s: string): Option<Option<string>>
  {
    if s == "" then Some(None)
    else if k.comment <= s && |k.comment| < |s| && s[|s| - 1] == '"' then Some(Some(s[|k.comment|..|s| - 1]))
    else None
  }

  function DecodeAdd(k: Syntax, s: string): Option<Command>
  {
    var (src, s1) := TakeOption(From(s, ' '), k.src);
    var (iface, s2) := TakeOption(s1, k.iface);
    match DecodeComment(k, s2)
    case None => None
    case Some(comment) => Some(AddDropRule(UpTo(s, ' '), src, iface, comment))
  }

  function DecodeImport(k: Syntax, s: string): Option<Command>
  {
    var rest := From(s, ' ');
    if k.file <= rest then Some(ImportKey(UpTo(s, ' '), rest[|k.file|..])) else None
  }

  function Decode(k: Syntax, cmd: string): Option<Command>
  {
    if k.add <= cmd then DecodeAdd(k, cmd[|k.add|..])
    else if k.remove <= cmd then Some(RemoveRule(UpTo(cmd[|k.remove|..], ']')))
    else if k.import_ <= cmd then DecodeImport(k, cmd[|k.import_|..])
    else if k.delete <= cmd then Some(RemoveKey(cmd[|k.delete|..]))
    else if cmd == k.system then Some(SystemInfo)
    else if cmd == k.interfaces then Some(InterfaceList)
    else if cmd == k.addresses then Some(IpAddresses)
    else if cmd == k.filters then Some(FilterList)
    else None
  }

  // ----- decoding what was printed ------------------------------------------

  lemma CutWord(w: string, c: char, t: string)
    requires c !in w && (t == "" || t[0] == c)
    ensures UpTo(w + t, c) == w && From(w + t, c) == t
  {
    if t == "" {
      assert w + t == w;
    } else {
      FindAt(w, c, t[1..]);
      assert w + t == w + [c] + t[1..];
    }
  }

  lemma DropPrefix(p: string, t: string)
    ensures p <= p + t && (p + t)[|p|..] == t
  {
  }

  lemma TakeGiven(key: string, v: string, t: string)
    requires ' ' !in v && (t == "" || t[0] == ' ')
    ensures TakeOption(key + v + t, key) == (Some(v), t)
  {
    assert key + v + t == key + (v + t);
    DropPrefix(key, v + t);
    CutWord(v, ' ', t);
  }

  /** A text that differs from the key early on is left alone. */
  lemma TakeAbsent(s: string, key: string, i: nat)
    requires i < |key| && (i < |s| ==> s[i] != key[i])
    ensures TakeOption(s, key) == (None, s)
  {
  }

  /** Two texts with distinct characters at one place are not prefixes. */
  lemma NotPrefix(p: string, s: string, i: nat)
    requires i < |p| && i < |s| && p[i] != s[i]
    ensures !(p <= s)
  {
  }

  function Tail(k: Syntax, src: Option<string>, iface: Option<string>, comment: Option<string>): string
  {
    SrcPart(k, src) + TailIface(k, iface, comment)
  }

  function TailIface(k: Syntax, iface: Option<string>, comment: Option<string>): string
  {
    IfacePart(k, iface) + TailComment(k, comment)
  }

  function TailComment(k: Syntax, comment: Option<string>): string
  {
    if comment.Some? then k.comment + comment.value + "\"" else ""
  }

  /** Which character each optional part starts with. */
  lemma Starts(k: Syntax, iface: Option<string>, comment: Option<string>)
    requires Distinct(k)
    ensures var t := TailComment(k, comment); t == "" || (|t| > 1 && t[0] == ' ' && t[1] == 'c')
    ensures var t := TailIface(k, iface, comment); t == "" || (|t| > 1 && t[0] == ' ' && (t[1] == 'i' || t[1] == 'c'))
  {
  }

  lemma TakeSrc(k: Syntax, src: Option<string>, iface: Option<string>, comment: Option<string>)
    requires Distinct(k)
    requires src.Some? ==> ' ' !in src.value
    ensures TakeOption(Tail(k, src, iface, comment), k.src) == (src, TailIface(k, iface, comment))
    ensures var t := Tail(k, src, iface, comment); t == "" || t[0] == ' '
  {
    Starts(k, iface, comment);
    if src.Some? {
      TakeGiven(k.src, src.value, TailIface(k, iface, comment));
    } else {
      assert "" + TailIface(k, iface, comment) == TailIface(k, iface, comment);
      TakeAbsent(TailIface(k, iface, comment), k.src, 1);
    }
  }

  lemma TakeIface(k: Syntax, iface: Option<string>, comment: Option<string>)
    requires Distinct(k)
    requires iface.Some? ==> ' ' !in iface.value
    ensures TakeOption(TailIface(k, iface, comment), k.iface) == (iface, TailComment(k, comment))
  {
    Starts(k, iface, comment);
    if iface.Some? {
      TakeGiven(k.iface, iface.value, TailComment(k, comment));
    } else {
      assert "" + TailComment(k, comment) == TailComment(k, comment);
      TakeAbsent(TailComment(k, comment), k.iface, 1);
    }
  }

  lemma TakeComment(k: Syntax, comment: Option<string>)
    requires Distinct(k)
    ensures DecodeComment(k, TailComment(k, comment)) == Some(comment)
  {
    if comment.Some? {
      var c := TailComment(k, comment);
      assert c == k.comment + (comment.value + "\"");
      assert c[|k.comment|..|c| - 1] == comment.value;
    }
  }

  lemma DecodeAddPieces(k: Syntax, s: string, dst: string, t: string, src: Option<string>, s1: string,
                        iface: Option<string>, s2: string, comment: Option<string>)
    requires UpTo(s, ' ') == dst && From(s, ' ') == t
    requires TakeOption(t, k.src) == (src, s1) && TakeOption(s1, k.iface) == (iface, s2)
    requires DecodeComment(k, s2) == Some(comment)
    ensures DecodeAdd(k, s) == Some(AddDropRule(dst, src, iface, comment))
  {
  }

  lemma DecodeAddTail(k: Syntax, dst: string, src: Option<string>, iface: Option<string>, comment: Option<string>)
    requires Distinct(k)
    requires ' ' !in dst && (src.Some? ==> ' ' !in src.value) && (iface.Some? ==> ' ' !in iface.value)
    ensures DecodeAdd(k, dst + Tail(k, src, iface, comment)) == Some(AddDropRule(dst, src, iface, comment))
  {
    var t, s1, s2 := Tail(k, src, iface, comment), TailIface(k, iface, comment), TailComment(k, comment);
    TakeSrc(k, src, iface, comment);
    TakeIface(k, iface, comment);
    TakeComment(k, comment);
    CutWord(dst, ' ', t);
    DecodeAddPieces(k, dst + t, dst, t, src, s1, iface, s2, comment);
  }

  lemma DecodeAddPrinted(k: Syntax, cmd: string, s: string)
    requires cmd == k.add + s
    ensures Decode(k, cmd) == DecodeAdd(k, s)
  {
    DropPrefix(k.add, s);
  }

  lemma DecodeRemovePrinted(k: Syntax, m: string)
    requires Distinct(k)
    requires ']' !in m
    ensures Decode(k, k.remove + m + "]") == Some(RemoveRule(m))
  {
    var cmd := k.remove + (m + "]");
    assert k.remove + m + "]" == cmd;
    DropPrefix(k.remove, m + "]");
    CutWord(m, ']', "]");
    NotPrefix(k.add, cmd, 20);
  }

  lemma DecodeImportTail(k: Syntax, user: string, file: string)
    requires Distinct(k)
    requires ' ' !in user
    ensures DecodeImport(k, user + (k.file + file)) == Some(ImportKey(user, file))
  {
    DropPrefix(k.file, file);
    CutWord(user, ' ', k.file + file);
  }

  lemma DecodeImportPrinted(k: Syntax, cmd: string, s: string)
    requires Distinct(k)
    requires cmd == k.import_ + s
    ensures Decode(k, cmd) == DecodeImport(k, s)
  {
    DropPrefix(k.import_, s);
    NotPrefix(k.add, cmd, 1);
    NotPrefix(k.remove, cmd, 1);
  }

  lemma DecodeDeletePrinted(k: Syntax, n: string)
    requires Distinct(k)
    ensures Decode(k, k.delete + n) == Some(RemoveKey(n))
  {
    DropPrefix(k.delete, n);
    NotPrefix(k.add, k.delete + n, 1);
    NotPrefix(k.remove, k.delete + n, 1);
    NotPrefix(k.import_, k.delete + n, 15);
  }

  lemma DecodeReads(k: Syntax)
    requires Distinct(k)
    ensures Decode(k, k.system) == Some(SystemInfo) && Decode(k, k.interfaces) == Some(InterfaceList)
    ensures Decode(k, k.addresses) == Some(IpAddresses) && Decode(k, k.filters) == Some(FilterList)
  {
    NotPrefix(k.delete, k.system, 1);
    NotPrefix(k.delete, k.filters, 1);
  }

  // ----- the two together ---------------------------------------------------

  predicate AdmittedIfGiven(class_: ParamClass, v: Option<string>)
  {
    v.Some? ==> Admits(class_, v.value)
  }

  /** A command whose parameters are of their classes. */
  predicate Admissible(c: Command)
  {
    match c
    case AddDropRule(dst, src, iface, comment) =>
      && Admits(Cidr, dst) && AdmittedIfGiven(Cidr, src)
      && AdmittedIfGiven(Identifier, iface) && AdmittedIfGiven(SafeText, comment)
    case RemoveRule(selector) => Admits(Identifier, selector)
    case ImportKey(user, file) => Admits(Identifier, user) && Admits(SafeText, file)
    case RemoveKey(number) => Admits(Int, number)
    case _ => true
  }

  lemma InterpretedIsAdmissible(capability: string, params: Option<Json>)
    requires Interpret(capability, params).Ok?
    ensures Admissible(Interpret(capability, params).value)
  {
    if NameOf(capability) == AddName {
      var c := InterpretAdd(params.value).value;
      AddAcceptedIff(params.value);
      InterpretAddMeans(params.value, c.dst, c.src, c.iface, c.comment);
    }
  }

  lemma AddDecodes(k: Syntax, cmd: string, dst: string, src: Option<string>, iface: Option<string>,
                   comment: Option<string>)
    requires Distinct(k)
    requires Admissible(AddDropRule(dst, src, iface, comment))
    requires cmd == k.add + dst + Tail(k, src, iface, comment)
    ensures Decode(k, cmd) == Some(AddDropRule(dst, src, iface, comment))
  {
    ClassExcludes(dst, Cidr);
    if src.Some? { ClassExcludes(src.value, Cidr); }
    if iface.Some? { ClassExcludes(iface.value, Identifier); }
    var s := dst + Tail(k, src, iface, comment);
    assert cmd == k.add + s;
    DecodeAddPrinted(k, cmd, s);
    DecodeAddTail(k, dst, src, iface, comment);
  }

  lemma ImportDecodes(k: Syntax, cmd: string, user: string, file: string)
    requires Distinct(k) && Admits(Identifier, user)
    requires cmd == k.import_ + user + k.file + file
    ensures Decode(k, cmd) == Some(ImportKey(user, file))
  {
    ClassExcludes(user, Identifier);
    var s := user + (k.file + file);
    assert cmd == k.import_ + s;
    DecodeImportPrinted(k, cmd, s);
    DecodeImportTail(k, user, file);
  }

  /** Decoding undoes printing, for every command with parameters of their classes. */
  lemma DecodesPrinted(k: Syntax, c: Command)
    requires Distinct(k) && Admissible(c)
    ensures Decode(k, Printed(k, c)) == Some(c)
  {
    match c
    case AddDropRule(dst, src, iface, comment) => AddDecodes(k, Printed(k, c), dst, src, iface, comment);
    case RemoveRule(selector) =>
      ClassExcludes(selector, Identifier);
      DecodeRemovePrinted(k, selector);
    case ImportKey(user, file) => ImportDecodes(k, Printed(k, c), user, file);
    case RemoveKey(number) => DecodeDeletePrinted(k, number);
    case _ => DecodeReads(k);
  }

  // ----- the builder --------------------------------------------------------

  type Built = Result<string, RouterOsError>

  /** What comes of an interpreted request. */
  function Outcome(k: Syntax, c: Result<Command, RouterOsError>): Built
  {
    match c
    case Ok(cmd) => Ok(Printed(k, cmd))
    case Err(e) => Err(e)
  }

  /** The builder: it refuses exactly what `Interpret` refuses, with the same error,
      and otherwise prints the command's line, from which the capability and every
      parameter used, the optional ones included, can be read back. */
  method BuildCommand(capability: string, params: Option<Json>) returns (r: Built)
    ensures Interpret(capability, params).Err? ==> r == Err(Interpret(capability, params).error)
    ensures Interpret(capability, params).Ok? ==>
              && r == Ok(CommandLine(Interpret(capability, params).value))
              && Decode(ROUTEROS, r.value) == Some(Interpret(capability, params).value)
  {
    r := BuildWith(ROUTEROS, capability, params);
    if r.Ok? {
      RouterOsDistinct();
      InterpretedIsAdmissible(capability, params);
      DecodesPrinted(ROUTEROS, Interpret(capability, params).value);
      PrintedIsCommandLine(Interpret(capability, params).value);
    }
  }

  method BuildWith(k: Syntax, capability: string, params: Option<Json>) returns (r: Built)
    ensures r == Outcome(k, Interpret(capability, params))
  {
    match NameOf(capability)
    case Reads(c) =>
      match c {
        case SystemInfo => r := Ok(k.system);
        case InterfaceList => r := Ok(k.interfaces);
        case IpAddresses => r := Ok(k.addresses);
        case _ => r := Ok(k.filters);
      }
    case AddName =>
      if params.None? { return Err(MissingParam("params")); }
      r := BuildAdd(k, params.value);
    case RemoveName =>
      if params.None? { return Err(MissingParam("params")); }
      r := BuildRemove(k, params.value);
    case ImportName =>
      if params.None? { return Err(MissingParam("params")); }
      r := BuildImport(k, params.value);
    case DeleteName =>
      if params.None? { return Err(MissingParam("params")); }
      r := BuildDelete(k, params.value);
    case Unknown =>
      r := Err(UnknownCapability(capability));
  }

  method BuildRemove(k: Syntax, p: Json) returns (r: Built)
    ensures r == Outcome(k, InterpretRemove(p))
  {
    var m := GetStr(p, "match");
    if m.None? { return Err(MissingParam("match")); }
    var v := Validate(m.value, Identifier);
    if v.Err? { return Err(BadParam(v.error)); }
    return Ok(k.remove + m.value + "]");
  }

  method BuildImport(k: Syntax, p: Json) returns (r: Built)
    ensures r == Outcome(k, InterpretImport(p))
  {
    var user := GetStr(p, "user");
    if user.None? { return Err(MissingParam("user")); }
    var file := GetStr(p, "file");
    if file.None? { return Err(MissingParam("file")); }
    var v := Validate(user.value, Identifier);
    if v.Err? { return Err(BadParam(v.error)); }
    v := Validate(file.value, SafeText);
    if v.Err? { return Err(BadParam(v.error)); }
    return Ok(k.import_ + user.value + k.file + file.value);
  }

  method BuildDelete(k: Syntax, p: Json) returns (r: Built)
    ensures r == Outcome(k, InterpretDelete(p))
  {
    var n := GetStr(p, "number");
    if n.None? { return Err(MissingParam("number")); }
    var v := Validate(n.value, Int);
    if v.Err? { return Err(BadParam(v.error)); }
    return Ok(k.delete + n.value);
  }

  function SrcPart(k: Syntax, src: Option<string>): string
  {
    if src.Some? then k.src + src.value else ""
  }

  function IfacePart(k: Syntax, iface: Option<string>): string
  {
    if iface.Some? then k.iface + iface.value else ""
  }

  lemma Unchanged(cmd: string)
    ensures cmd + "" == cmd
  {
  }

  /** Appending the optional parts one at a time gives the whole tail. */
  lemma AppendedTail(k: Syntax, cmd: string, src: Option<string>, iface: Option<string>, comment: Option<string>,
                     c1: string, c2: string, c3: string)
    requires c1 == cmd + SrcPart(k, src)
    requires c2 == c1 + IfacePart(k, iface)
    requires c3 == c2 + TailComment(k, comment)
    ensures c3 == cmd + Tail(k, src, iface, comment)
  {
    Reassociate(c1, IfacePart(k, iface), TailComment(k, comment));
    Reassociate(cmd, SrcPart(k, src), TailIface(k, iface, comment));
  }

  method BuildAdd(k: Syntax, p: Json) returns (r: Built)
    ensures r == Outcome(k, InterpretAdd(p))
  {
    var dst := GetStr(p, "dst_address");
    if dst.None? { return Err(MissingParam("dst_address")); }
    var v := Validate(dst.value, Cidr);
    if v.Err? { return Err(BadParam(v.error)); }
    var cmd := k.add + dst.value;
    ghost var c0 := cmd;
    var src := GetStr(p, "src_address");
    if src.Some? {
      v := Validate(src.value, Cidr);
      if v.Err? { return Err(BadParam(v.error)); }
      cmd := cmd + (k.src + src.value);
    }
    Unchanged(c0);
    assert cmd == c0 + SrcPart(k, src);
    ghost var c1 := cmd;
    var iface := GetStr(p, "in_interface");
    if iface.Some? {
      v := Validate(iface.value, Identifier);
      if v.Err? { return Err(BadParam(v.error)); }
      cmd := cmd + (k.iface + iface.value);
    }
    Unchanged(c1);
    assert cmd == c1 + IfacePart(k, iface);
    ghost var c2 := cmd;
    var comment := GetStr(p, "comment");
    if comment.Some? {
      v := Validate(comment.value, SafeText);
      if v.Err? { return Err(BadParam(v.error)); }
      cmd := cmd + (k.comment + comment.value + "\"");
    }
    Unchanged(c2);
    AppendedTail(k, c0, src, iface, comment, c1, c2, cmd);
    r := Ok(cmd);
  }
}
