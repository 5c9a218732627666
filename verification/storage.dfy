/**
  The calls the front end prepares for the on-chain project storage and for the key
  server (src/utils/storage.js). Each operation's network request is left out; what is
  modelled is the guard that runs before it and the request or contract-call arguments
  it builds. The `storageMethods` constants are a parameter, as are the environment
  variables and the IPFS gateway address. A `TypeError` thrown by a property read on
  `null` or `undefined` is the error `TYPE_ERROR`.
 */
module ProjectStorage {
  import opened Options
  import opened JsValues

  /** The message of an error JavaScript raises itself when a property of a nullish value is read. */
  const TYPE_ERROR: string := "TypeError"

  /** The five method names `storageMethods` defines. */
  datatype StorageMethods = StorageMethods(
    setProjectName: string,
    setLogoUrl: string,
    setBrandColor: string,
    setTokenList: string,
    setFullData: string)

  /** A contract method call: `storage.methods[name](...args)`. */
  datatype ContractCall = ContractCall(name: string, args: seq<JsValue>)

  /** `v.key` with strict JavaScript semantics: it throws on `null` and `undefined`. */
  function Member(v: JsValue, key: string): (r: Result<JsValue>)
    ensures r.Err? <==> Nullish(v)
    ensures r.Ok? ==> r.value == Get(v, key)
  {
    if Nullish(v) then Err(TYPE_ERROR) else Ok(Get(v, key))
  }

  /** `tokens.map((item) => item.address)`; it throws unless `tokens` is an array of non-nullish items. */
  function TokenAddresses(tokens: JsValue): (r: Result<seq<JsValue>>)
    ensures r.Ok? <==> tokens.Arr? && forall i :: 0 <= i < |tokens.elems| ==> !Nullish(tokens.elems[i])
    ensures r.Ok? ==> |r.value| == |tokens.elems| &&
                      forall i :: 0 <= i < |r.value| ==> r.value[i] == Get(tokens.elems[i], "address")
  {
    if tokens.Arr? && forall i :: 0 <= i < |tokens.elems| ==> !Nullish(tokens.elems[i]) then
      Ok(seq(|tokens.elems|, i requires 0 <= i < |tokens.elems| => Get(tokens.elems[i], "address")))
    else Err(TYPE_ERROR)
  }

  /** Lines 107-122: the arguments of each known method; a property read on a nullish value throws. */
  function OptionArguments(names: StorageMethods, name: string, value: JsValue): (r: Option<Result<seq<JsValue>>>)
    ensures r.None? <==> name !in {names.setProjectName, names.setLogoUrl, names.setBrandColor, names.setTokenList, names.setFullData}
    ensures name == names.setProjectName || name == names.setLogoUrl || name == names.setBrandColor ==> r == Some(Ok([value]))
    ensures r.Some? && r.value.Err? ==> r.value.message == TYPE_ERROR
  {
    if name == names.setProjectName || name == names.setLogoUrl || name == names.setBrandColor then Some(Ok([value]))
    else if name == names.setTokenList then
      var tokenName := Member(value, "name");
      var tokens := Member(value, "tokens");
      if tokenName.Err? || tokens.Err? || TokenAddresses(tokens.value).Err? then Some(Err(TYPE_ERROR))
      else Some(Ok([tokenName.value, Arr(TokenAddresses(tokens.value).value)]))
    else if name == names.setFullData then
      var tokens := Member(value, "tokens");
      if tokens.Err? || TokenAddresses(tokens.value).Err? then Some(Err(TYPE_ERROR))
      else Some(Ok([Obj(OwnEntries(value)["tokens" := Arr(TokenAddresses(tokens.value).value)])]))
    else None
  }

  /**
    Lines 123-137: a name matching no case is cleared, and an empty name throws
    'No such method' instead of calling the contract; otherwise the contract is called
    under the given name with the case's arguments.
   */
  function ProjectOptionCall(names: StorageMethods, name: string, value: JsValue): (r: Result<ContractCall>)
    ensures r.Ok? <==> name != "" && OptionArguments(names, name, value).Some? && OptionArguments(names, name, value).value.Ok?
    ensures r.Ok? ==> r.value == ContractCall(name, OptionArguments(names, name, value).value.value)
    ensures OptionArguments(names, name, value).None? ==> r == Err("No such method")
  {
    match OptionArguments(names, name, value)
    case None => Err("No such method")
    case Some(Err(e)) => Err(e)
    case Some(Ok(args)) => if name != "" then Ok(ContractCall(name, args)) else Err("No such method")
  }

  /** `setTokenList` sends the list's name and its tokens' addresses in order. */
  lemma TokenListArguments(names: StorageMethods, list: map<string, JsValue>, tokens: seq<JsValue>)
    requires names.setTokenList != ""
    requires names.setTokenList !in {names.setProjectName, names.setLogoUrl, names.setBrandColor}
    requires "tokens" in list && list["tokens"] == Arr(tokens)
    requires forall i :: 0 <= i < |tokens| ==> !Nullish(tokens[i])
    ensures var r := ProjectOptionCall(names, names.setTokenList, Obj(list));
            && r.Ok? && |r.value.args| == 2
            && r.value.args[0] == Get(Obj(list), "name")
            && r.value.args[1] == Arr(seq(|tokens|, i requires 0 <= i < |tokens| => Get(tokens[i], "address")))
  {
  }

  /**
    `setFullData` sends one record: the value's own members, with `tokens` replaced by
    the tokens' addresses in order and every other member unchanged.
   */
  lemma FullDataArguments(names: StorageMethods, value: map<string, JsValue>, tokens: seq<JsValue>)
    requires names.setFullData != ""
    requires names.setFullData !in {names.setProjectName, names.setLogoUrl, names.setBrandColor, names.setTokenList}
    requires "tokens" in value && value["tokens"] == Arr(tokens)
    requires forall i :: 0 <= i < |tokens| ==> !Nullish(tokens[i])
    ensures var r := ProjectOptionCall(names, names.setFullData, Obj(value));
            && r.Ok? && |r.value.args| == 1 && r.value.args[0].Obj?
            && r.value.args[0].fields.Keys == value.Keys
            && r.value.args[0].fields["tokens"] == Arr(seq(|tokens|, i requires 0 <= i < |tokens| => Get(tokens[i], "address")))
            && forall k :: k in value && k != "tokens" ==> r.value.args[0].fields[k] == value[k]
  {
  }

  /** Lines 97-137, step by step: the switch assigns `method` and `args`, then the call is made or refused. */
  method SaveProjectOption(names: StorageMethods, name: string, value: JsValue) returns (r: Result<ContractCall>)
    ensures r == ProjectOptionCall(names, name, value)
  {
    var methodName := name;
    var args: seq<JsValue>;
    if name == names.setProjectName {
      args := [value];
    } else if name == names.setLogoUrl {
      args := [value];
    } else if name == names.setBrandColor {
      args := [value];
    } else if name == names.setTokenList {
      var tokenName := Member(value, "name");
      if tokenName.Err? {
        return Err(TYPE_ERROR);
      }
      var tokens := Member(value, "tokens");
      if tokens.Err? {
        return Err(TYPE_ERROR);
      }
      var addresses := TokenAddresses(tokens.value);
      if addresses.Err? {
        return Err(TYPE_ERROR);
      }
      args := [tokenName.value, Arr(addresses.value)];
    } else if name == names.setFullData {
      var tokens := Member(value, "tokens");
      if tokens.Err? {
        return Err(TYPE_ERROR);
      }
      var addresses := TokenAddresses(tokens.value);
      if addresses.Err? {
        return Err(TYPE_ERROR);
      }
      args := [Obj(OwnEntries(value)["tokens" := Arr(addresses.value)])];
    } else {
      methodName := "";
      args := [];
    }
    if methodName != "" {
      r := Ok(ContractCall(methodName, args));
    } else {
      r := Err("No such method");
    }
  }

  /** The result of `getData` before its request: an error value returned, or the gateway URL to read. */
  datatype DataRequest = IncorrectHash(message: string) | Fetch(url: string)

  predicate IsAsciiAlphanumeric(c: char)
  {
    'a' <= c <= 'z' || 'A' <= c <= 'Z' || '0' <= c <= '9'
  }

  /** `/[a-zA-Z0-9]/` finds a match somewhere in the string. */
  predicate HasAlphanumeric(s: string)
  {
    exists i :: 0 <= i < |s| && IsAsciiAlphanumeric(s[i])
  }

  /**
    Lines 36-46: a hash with no ASCII letter or digit gets an `Error` back as a value, and
    no request; any other is read from the IPFS gateway.
   */
  function GetData(ipfsGateway: string, contentHash: string): (r: DataRequest)
    ensures r.IncorrectHash? <==> !HasAlphanumeric(contentHash)
    ensures r.IncorrectHash? ==> r.message == "Incorrect file hash"
    ensures r.Fetch? ==> r.url == ipfsGateway + "/" + contentHash
  {
    if !HasAlphanumeric(contentHash) then IncorrectHash("Incorrect file hash")
    else Fetch(ipfsGateway + "/" + contentHash)
  }

  /**
    One ASCII letter or digit anywhere in the hash is enough for the request to go to
    the gateway, whatever the other characters are.
   */
  lemma GetDataOneCharacterSuffices(ipfsGateway: string, contentHash: string, i: nat)
    requires i < |contentHash| && IsAsciiAlphanumeric(contentHash[i])
    ensures GetData(ipfsGateway, contentHash) == Fetch(ipfsGateway + "/" + contentHash)
  {
  }

  /**
    Lines 10-19: the key-server URL; a missing or empty server IP or port throws
    'No destination' before any request.
   */
  function GenerateNewKeys(serverIp: Option<string>, serverPort: Option<string>): (r: Result<string>)
    ensures r.Err? <==> serverIp.None? || serverIp.value == "" || serverPort.None? || serverPort.value == ""
    ensures r.Err? ==> r.message == "No destination"
    ensures r.Ok? ==> r.value == "https://" + serverIp.value + ":" + serverPort.value + "/newKeys"
  {
    if serverIp.None? || serverIp.value == "" || serverPort.None? || serverPort.value == "" then Err("No destination")
    else Ok("https://" + serverIp.value + ":" + serverPort.value + "/newKeys")
  }

  /**
    Lines 57-68: the `addFullData` argument: `projectName` is sent as `name`, `logoUrl` as
    `logo`, and `brandColor`, `listName` and `tokens` under their own names. Destructuring
    `null` or `undefined` throws.
   */
  function SaveAllOptions(options: JsValue): (r: Result<JsValue>)
    ensures r.Err? <==> Nullish(options)
    ensures r.Ok? ==> r.value.Obj? && r.value.fields.Keys == {"name", "logo", "brandColor", "listName", "tokens"}
    ensures r.Ok? ==> && Get(r.value, "name") == Get(options, "projectName")
                      && Get(r.value, "logo") == Get(options, "logoUrl")
                      && Get(r.value, "brandColor") == Get(options, "brandColor")
                      && Get(r.value, "listName") == Get(options, "listName")
                      && Get(r.value, "tokens") == Get(options, "tokens")
  {
    if Nullish(options) then Err(TYPE_ERROR)
    else
      Ok(Obj(map["name" := Get(options, "projectName"), "logo" := Get(options, "logoUrl"),
                 "brandColor" := Get(options, "brandColor"), "listName" := Get(options, "listName"),
                 "tokens" := Get(options, "tokens")]))
  }

  /**
    Saving the options of a project read back from storage (`name`, `logo`, …) under the
    form's names gives the same record: the renaming undoes the form's renaming.
   */
  lemma SaveAllOptionsRoundTrip(project: map<string, JsValue>)
    requires project.Keys == {"name", "logo", "brandColor", "listName", "tokens"}
    ensures SaveAllOptions(Obj(map["projectName" := project["name"], "logoUrl" := project["logo"],
                                   "brandColor" := project["brandColor"], "listName" := project["listName"],
                                   "tokens" := project["tokens"]])) == Ok(Obj(project))
  {
    var options := Obj(map["projectName" := project["name"], "logoUrl" := project["logo"],
                           "brandColor" := project["brandColor"], "listName" := project["listName"],
                           "tokens" := project["tokens"]]);
    var saved := SaveAllOptions(options).value;
    assert saved.fields.Keys == project.Keys;
    assert forall k :: k in project ==> saved.fields[k] == project[k];
    assert saved.fields == project;
  }
}
