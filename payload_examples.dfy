/** Sample payloads in the layouts Sentinel publishes, given by their tokens, decoded. */
module PayloadExamples {
  import opened JsValues
  import opened Tokens
  import opened Notifications

  /** `slave 127.0.0.1:6380 127.0.0.1 6380 @ mymaster 127.0.0.1 6379`: a slave announcing its master. */
  lemma SlaveOfMasterExample()
    ensures ParseInstanceDetails(Join(["slave", "127.0.0.1:6380", "127.0.0.1", "6380", "@", "mymaster", "127.0.0.1", "6379"])) ==
      map["type" := Str("slave"), "name" := Str("127.0.0.1:6380"), "ip" := Str("127.0.0.1"),
          "port" := Str("6380"), "master-name" := Str("mymaster"), "master-ip" := Str("127.0.0.1"),
          "master-port" := Str("6379")]
  {
    assert IsWord("slave") && IsWord("127.0.0.1:6380") && IsWord("127.0.0.1") && IsWord("6380");
    assert IsWord("mymaster") && IsWord("6379");
    MasterRoundTrip("slave", "127.0.0.1:6380", "127.0.0.1", "6380", "mymaster", "127.0.0.1", "6379");
  }

  /** `master mymaster 127.0.0.1 6379 #quorum 2/2`: an `+odown` master with its votes over its quorum. */
  lemma QuorumExample()
    ensures ParseInstanceDetails(Join(["master", "mymaster", "127.0.0.1", "6379", "#quorum", "2/2"])) ==
      map["type" := Str("master"), "name" := Str("mymaster"), "ip" := Str("127.0.0.1"),
          "port" := Str("6379"), "quorum" := Str("2/2")]
  {
    assert IsWord("master") && IsWord("mymaster") && IsWord("127.0.0.1") && IsWord("6379") && IsWord("2/2");
    QuorumRoundTrip("master", "mymaster", "127.0.0.1", "6379", "2/2");
  }

  /** `mymaster 127.0.0.1 6379 127.0.0.1 6380`: a completed failover moving `mymaster` to port 6380. */
  lemma SwitchMasterExample()
    ensures ParseSwitchMasterDetails(Join(["mymaster", "127.0.0.1", "6379", "127.0.0.1", "6380"])) ==
      map["master-name" := Str("mymaster"), "old-ip" := Str("127.0.0.1"), "old-port" := Str("6379"),
          "new-ip" := Str("127.0.0.1"), "new-port" := Str("6380")]
  {
    assert IsWord("mymaster") && IsWord("127.0.0.1") && IsWord("6379") && IsWord("6380");
    SwitchMasterRoundTrip("mymaster", "127.0.0.1", "6379", "127.0.0.1", "6380");
  }
}
