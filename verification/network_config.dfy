/** NetworkConfigBuilder: the `VpcConfig` fragment of the create request, built
    from the optional comma-separated `subnet_ids` and `security_group_ids`
    configuration strings. */
module NetworkConfig {
  import opened Options
  import opened Strings

  datatype VpcConfig = VpcConfig(subnetIds: seq<string>, securityGroupIds: seq<string>)

  /** Each piece stripped of surrounding whitespace, order kept. */
  function StripEach(parts: seq<string>): (r: seq<string>)
    ensures |r| == |parts|
    ensures forall i :: 0 <= i < |r| ==> r[i] == Strip(parts[i])
  {
    seq(|parts|, i requires 0 <= i < |parts| => Strip(parts[i]))
  }

  /** One identifier list: absent gives the empty list; present is split on
      commas and each piece stripped, so `"sub1, sub2"` gives
      `["sub1", "sub2"]`. A present string always gives one identifier more
      than it has commas, so an empty string gives `[""]`, not `[]`. */
  function ParseIdList(ids: Option<string>): (r: seq<string>)
    ensures r == [] <==> ids.None?
    ensures ids.Some? ==> |r| == Count(ids.value, ',') + 1
    ensures forall i :: 0 <= i < |r| ==> ',' !in r[i] && Stripped(r[i])
  {
    match ids
    case None => []
    case Some(s) =>
      var parts := Split(s, ',');
      var r := StripEach(parts);
      assert forall i :: 0 <= i < |r| ==> ',' !in r[i] by {
        forall i | 0 <= i < |r|
          ensures ',' !in r[i]
        {
          var lo, hi := StripIsPaddedSlice(parts[i]);
          assert r[i] == parts[i][lo..hi];
          assert forall x :: x in r[i] ==> x in parts[i];
        }
      }
      r
  }

  /** The `VpcConfig` fragment: always present, with each list empty exactly
      when its configuration key is absent. */
  function BuildVpcConfig(subnetIds: Option<string>, securityGroupIds: Option<string>): (v: VpcConfig)
    ensures v.subnetIds == [] <==> subnetIds.None?
    ensures v.securityGroupIds == [] <==> securityGroupIds.None?
    ensures v.subnetIds == ParseIdList(subnetIds)
    ensures v.securityGroupIds == ParseIdList(securityGroupIds)
  {
    VpcConfig(ParseIdList(subnetIds), ParseIdList(securityGroupIds))
  }

  /** Each identifier wrapped in its own whitespace padding. */
  function Pad(ids: seq<string>, before: seq<string>, after: seq<string>): (r: seq<string>)
    requires |before| == |ids| && |after| == |ids|
    ensures |r| == |ids|
  {
    seq(|ids|, k requires 0 <= k < |ids| => before[k] + ids[k] + after[k])
  }

  /** Round trip: writing a list of comma-free identifiers with commas between
      them and any whitespace around each one, then parsing it, gives the
      identifiers back in order. */
  lemma ParsePaddedList(ids: seq<string>, before: seq<string>, after: seq<string>)
    requires |ids| >= 1 && |before| == |ids| && |after| == |ids|
    requires forall k :: 0 <= k < |ids| ==> ',' !in ids[k] && Stripped(ids[k])
    requires forall k :: 0 <= k < |ids| ==> AllSpace(before[k]) && AllSpace(after[k])
    ensures ParseIdList(Some(Join(Pad(ids, before, after), ','))) == ids
  {
    var padded := Pad(ids, before, after);
    forall k | 0 <= k < |padded|
      ensures ',' !in padded[k]
    {
      assert padded[k] == before[k] + ids[k] + after[k];
      assert !IsSpace(',');
    }
    SplitJoin(padded, ',');
    var r := ParseIdList(Some(Join(padded, ',')));
    forall k | 0 <= k < |ids|
      ensures r[k] == ids[k]
    {
      StripRemovesPadding(before[k], ids[k], after[k]);
    }
  }

  /** `"x, y"` parses to `[x, y]` for identifiers without commas or
      surrounding whitespace. */
  lemma ParsesCommaSpaceList(x: string, y: string)
    requires ',' !in x && ',' !in y && Stripped(x) && Stripped(y)
    ensures ParseIdList(Some(x + ", " + y)) == [x, y]
  {
    var padded := Pad([x, y], ["", " "], ["", ""]);
    assert padded[0] == "" + x + "" == x;
    assert padded[1] == " " + y + "" == " " + y;
    assert padded == [x, " " + y];
    assert Join(padded, ',') == x + ", " + y by {
      assert Join(padded[1..], ',') == " " + y;
    }
    ParsePaddedList([x, y], ["", " "], ["", ""]);
  }
}
