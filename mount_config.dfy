/** The configuration NodePublishVolume writes for the mount client: a map with
    the keys mountpoint, volname, master and logpath. */
module MountConfig {
  import opened Common

  const LogPath: string := "/export/Logs/cfs/client/"

  /** The three masters, in attribute order, joined by commas. When no address
      contains a comma, splitting on commas gives the three back in order. */
  function JoinMasters(master1: string, master2: string, master3: string): (joined: string)
    ensures ',' !in master1 && ',' !in master2 && ',' !in master3
            ==> SplitOnComma(joined) == [master1, master2, master3]
  {
    SplitThreeFields(master1, master2, master3);
    master1 + "," + master2 + "," + master3
  }

  /** The configuration map for mounting the volume described by `attributes`
      at `targetPath`. */
  function BuildConfig(targetPath: string, attributes: map<string, string>): (config: map<string, string>)
    ensures config.Keys == {"mountpoint", "volname", "master", "logpath"}
    ensures config["mountpoint"] == targetPath
    ensures config["volname"] == Lookup(attributes, "cfsvolname")
    ensures config["master"] == JoinMasters(Lookup(attributes, "cfsMaster1"), Lookup(attributes, "cfsMaster2"),
                                            Lookup(attributes, "cfsMaster3"))
    ensures config["logpath"] == LogPath
  {
    var master1 := Lookup(attributes, "cfsMaster1");
    var master2 := Lookup(attributes, "cfsMaster2");
    var master3 := Lookup(attributes, "cfsMaster3");
    map[
      "mountpoint" := targetPath,
      "volname" := Lookup(attributes, "cfsvolname"),
      "master" := JoinMasters(master1, master2, master3),
      "logpath" := LogPath]
  }

  /** The fields of `s` between commas, in order (Go's `strings.Split(s, ",")`).
      It is the reference reading of the joined master string. */
  function SplitOnComma(s: string): (parts: seq<string>)
    ensures |parts| >= 1
  {
    if s == [] then [""]
    else
      var rest := SplitOnComma(s[1..]);
      if s[0] == ',' then [""] + rest
      else [[s[0]] + rest[0]] + rest[1..]
  }

  /** A comma-free string is a single field. */
  lemma {:induction false} SplitWithoutComma(a: string)
    requires ',' !in a
    ensures SplitOnComma(a) == [a]
  {
    if a != [] {
      SplitWithoutComma(a[1..]);
      assert [a[0]] + a[1..] == a;
    }
  }

  /** A comma-free field followed by a comma splits off as the first part. */
  lemma {:induction false} SplitAfterField(a: string, t: string)
    requires ',' !in a
    ensures SplitOnComma(a + "," + t) == [a] + SplitOnComma(t)
  {
    if a == [] {
      assert a + "," + t == [','] + t;
      assert (a + "," + t)[1..] == t;
    } else {
      var u := a + "," + t;
      assert u[0] == a[0] && u[1..] == a[1..] + "," + t;
      SplitAfterField(a[1..], t);
      assert [a[0]] + a[1..] == a;
    }
  }

  /** Three comma-free fields joined by commas split back into the three, in order. */
  lemma SplitThreeFields(a: string, b: string, c: string)
    ensures ',' !in a && ',' !in b && ',' !in c ==> SplitOnComma(a + "," + b + "," + c) == [a, b, c]
  {
    if ',' !in a && ',' !in b && ',' !in c {
      assert a + "," + b + "," + c == a + "," + (b + "," + c);
      SplitAfterField(a, b + "," + c);
      SplitAfterField(b, c);
      SplitWithoutComma(c);
    }
  }

  /** A comma inside an address is not escaped: two different attribute sets
      yield the same master string. */
  lemma CommaInMasterIsAmbiguous()
    ensures JoinMasters("a,b", "c", "d") == JoinMasters("a", "b,c", "d")
  {
  }
}
