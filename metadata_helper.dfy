/**
 * `parseMetadata`: the caller's user agent and IP address, read from the
 * metadata of an incoming gRPC call.
 */
module Metadata {
  import opened Results
  import opened Exceptions

  /** gRPC call metadata: each (lower-case) key carries a list of values. */
  type CallMetadata = map<string, seq<string>>

  datatype RequestMetadata = RequestMetadata(userAgent: string, ipAddress: string)

  const UserAgentKey := "user-agent"
  const ForwardedForKey := "x-forwarded-for"
  const DefaultIpAddress := "0.0.0.0"
  /** The `TypeError` of calling `toString` on the missing first value. */
  const MissingValueMessage := "Cannot read properties of undefined (reading 'toString')"

  /** `metadata.get(key)`: the values under `key`, none when it is absent. */
  function Get(metadata: CallMetadata, key: string): (values: seq<string>)
    ensures key !in metadata ==> values == []
  {
    if key in metadata then metadata[key] else []
  }

  /**
   * `parseMetadata`: the first user-agent value, and the first
   * x-forwarded-for value unless it is missing or empty, in which case the
   * address is "0.0.0.0". A call without a user agent throws.
   */
  function ParseMetadata(metadata: CallMetadata): (r: Result<RequestMetadata, Thrown>)
    ensures r.Ok? <==> |Get(metadata, UserAgentKey)| > 0
    ensures r.Ok? ==> r.value.ipAddress != ""
  {
    var agents := Get(metadata, UserAgentKey);
    if |agents| == 0 then
      Err(ErrorObject(MissingValueMessage))
    else
      var forwarded := Get(metadata, ForwardedForKey);
      var ipAddress := if |forwarded| > 0 && forwarded[0] != "" then forwarded[0] else DefaultIpAddress;
      Ok(RequestMetadata(agents[0], ipAddress))
  }

  /**
   * The address is the first forwarded-for value exactly as sent (a
   * comma-separated proxy chain is not split), or "0.0.0.0" when the header
   * is absent or its first value is empty; later values are ignored.
   */
  lemma IpAddressOfForwardedFor(metadata: CallMetadata, agent: string, rest: seq<string>)
    requires Get(metadata, UserAgentKey) == [agent] + rest
    ensures var r := ParseMetadata(metadata);
      && r.Ok? && r.value.userAgent == agent
      && (Get(metadata, ForwardedForKey) == [] ==> r.value.ipAddress == DefaultIpAddress)
      && (Get(metadata, ForwardedForKey) != [] && Get(metadata, ForwardedForKey)[0] == "" ==>
            r.value.ipAddress == DefaultIpAddress)
      && (Get(metadata, ForwardedForKey) != [] && Get(metadata, ForwardedForKey)[0] != "" ==>
            r.value.ipAddress == Get(metadata, ForwardedForKey)[0])
  {
  }

  /** A proxy chain such as "203.0.113.7, 10.0.0.1" is returned whole, comma included. */
  lemma ProxyChainNotSplit(agent: string)
    ensures var chain := "203.0.113.7, 10.0.0.1";
      ParseMetadata(map[UserAgentKey := [agent], ForwardedForKey := [chain]]) ==
        Ok(RequestMetadata(agent, chain))
  {
    var metadata := map[UserAgentKey := [agent], ForwardedForKey := ["203.0.113.7, 10.0.0.1"]];
    assert Get(metadata, UserAgentKey) == [agent];
    assert Get(metadata, ForwardedForKey) == ["203.0.113.7, 10.0.0.1"];
  }

  /** Only the two headers matter: other keys do not change the outcome. */
  lemma OnlyTwoKeysRead(metadata: CallMetadata, key: string, values: seq<string>)
    requires key != UserAgentKey && key != ForwardedForKey
    ensures ParseMetadata(metadata[key := values]) == ParseMetadata(metadata)
  {
    assert Get(metadata[key := values], UserAgentKey) == Get(metadata, UserAgentKey);
    assert Get(metadata[key := values], ForwardedForKey) == Get(metadata, ForwardedForKey);
  }
}
