/** The tunnel configuration of autossh: the direction of a tunnel, the
    parsed tunnel entry, and the ordered list that the command-line flag
    `-tunnels` appends to, one compact text entry at a time. */
module Setup {
  import opened GoStrings

  /** `TunnelType`: the two tunnel directions, named after the usual
      `ssh -L` (local) and `ssh -R` (remote) forwardings. */
  datatype TunnelType = Local | Remote {

    /** The `iota` value of the Go constant: `Local` is 0, `Remote` is 1. */
    function Ordinal(): (n: nat)
      ensures n < |Names|
      ensures n == 0 <==> this == Local
    {
      if this == Local then 0 else 1
    }

    /** `String`: the name at this direction's index in `Names`. */
    function String(): (s: string)
      ensures s == (if this == Local then "local" else "remote")
    {
      Names[Ordinal()]
    }

    /** `opposite`: the other direction. */
    function Opposite(): (r: TunnelType)
      ensures r != this
      ensures r.Ordinal() == 1 - Ordinal()
    {
      if this == Local then Remote else Local
    }
  }

  /** The name table that `String` indexes. */
  const Names: seq<string> := ["local", "remote"]

  /** The host a three-part entry binds to. */
  const DefaultBindHost: string := "127.0.0.1"

  /** One tunnel: its direction and a map holding the bind address under the
      tunnel's own direction and the target address under the opposite one. */
  datatype Tunnel = Tunnel(address: map<TunnelType, string>, tunnelType: TunnelType)

  /** A tunnel as `Set` builds it: exactly the two directions are keys,
      which by `OppositeCovers` are all the directions there are. */
  ghost predicate WellFormed(t: Tunnel)
  {
    t.address.Keys == {t.tunnelType, t.tunnelType.Opposite()}
  }

  /** The address kept under the tunnel's own direction: its bind address. */
  function Bind(t: Tunnel): string
    requires WellFormed(t)
  {
    t.address[t.tunnelType]
  }

  /** The address kept under the opposite direction: its target address. */
  function Target(t: Tunnel): string
    requires WellFormed(t)
  {
    t.address[t.tunnelType.Opposite()]
  }

  /** Why an entry was refused, one constructor per error return of `Set`. */
  datatype ParseError =
    | MissingType(entry: string)    // no space in the entry
    | UnknownType(token: string)    // the token before the first space is not a direction
    | BadAddresses(token: string)   // the address text has neither 3 nor 4 parts; quotes the token

  datatype Result<T> = Success(value: T) | Failure(error: ParseError)

  /** The direction a token names, if any. */
  function DirectionOf(token: string): (d: Option<TunnelType>)
    ensures d == Some(Remote) <==> token == "-R" || token == "R"
    ensures d == Some(Local) <==> token == "-L" || token == "L"
  {
    if token == "-R" || token == "R" then Some(Remote)
    else if token == "-L" || token == "L" then Some(Local)
    else None
  }

  datatype Option<T> = None | Some(value: T)

  /** The address map of a tunnel in direction `d` built from the pieces of
      its address text, when there are three or four of them. */
  function AddressesOf(d: TunnelType, parts: seq<string>): (m: Option<map<TunnelType, string>>)
    ensures m.Some? <==> |parts| == 3 || |parts| == 4
    ensures m.Some? ==> m.value.Keys == {d, d.Opposite()}
    ensures |parts| == 3 ==> m.Some? && m.value[d] == DefaultBindHost + ":" + parts[0]
                                     && m.value[d.Opposite()] == parts[1] + ":" + parts[2]
    ensures |parts| == 4 ==> m.Some? && m.value[d] == parts[0] + ":" + parts[1]
                                     && m.value[d.Opposite()] == parts[2] + ":" + parts[3]
  {
    if |parts| == 3 then
      Some(map[d := DefaultBindHost + ":" + parts[0]][d.Opposite() := parts[1] + ":" + parts[2]])
    else if |parts| == 4 then
      Some(map[d := parts[0] + ":" + parts[1]][d.Opposite() := parts[2] + ":" + parts[3]])
    else None
  }

  /** What `Set` does with one entry, as a value: the tunnel it appends, or
      the error it returns. */
  function ParseTunnel(v: string): (r: Result<Tunnel>)
    ensures r.Success? ==> WellFormed(r.value)
    ensures r.Success? ==> ' ' in v
    ensures ' ' !in v ==> r == Failure(MissingType(v))
  {
    var (tType, adr, found) := Cut(v, ' ');
    if !found then Failure(MissingType(v))
    else
      match DirectionOf(tType)
      case None => Failure(UnknownType(tType))
      case Some(d) =>
        match AddressesOf(d, Split(adr, ':'))
        case None => Failure(BadAddresses(tType))
        case Some(m) => Success(Tunnel(m, d))
  }

  /** `Tunnels`: the ordered tunnel list, updated in place by `Set`. */
  class TunnelList {
    var entries: seq<Tunnel>

    /** Every entry was built by `Set`. */
    ghost predicate Valid()
      reads this
    {
      forall i :: 0 <= i < |entries| ==> WellFormed(entries[i])
    }

    /** The zero value of the Go slice: no tunnels. */
    constructor ()
      ensures Valid() && entries == []
    {
      entries := [];
    }

    /** `Set`: parses one entry and appends its tunnel, or reports the error
        and leaves the list as it was. */
    method Set(v: string) returns (err: Option<ParseError>)
      requires Valid()
      modifies this
      ensures Valid()
      ensures ParseTunnel(v).Success? ==> err == None && entries == old(entries) + [ParseTunnel(v).value]
      ensures ParseTunnel(v).Failure? ==> err == Some(ParseTunnel(v).error) && entries == old(entries)
    {
      var address: map<TunnelType, string> := map[];
      var tunnelType: TunnelType;
      var (tType, adr, found) := Cut(v, ' ');
      if !found {
        return Some(MissingType(v));
      }
      if tType == "-R" || tType == "R" {
        tunnelType := Remote;
      } else if tType == "-L" || tType == "L" {
        tunnelType := Local;
      } else {
        return Some(UnknownType(tType));
      }
      var parts := Split(adr, ':');
      if |parts| == 3 {
        address := address[tunnelType := DefaultBindHost + ":" + parts[0]];
        address := address[tunnelType.Opposite() := parts[1] + ":" + parts[2]];
      } else if |parts| == 4 {
        address := address[tunnelType := parts[0] + ":" + parts[1]];
        address := address[tunnelType.Opposite() := parts[2] + ":" + parts[3]];
      } else {
        return Some(BadAddresses(tType));
      }
      entries := entries + [Tunnel(address, tunnelType)];
      return None;
    }
  }

  /** `opposite` is an involution. */
  lemma OppositeInvolutive(t: TunnelType)
    ensures t.Opposite().Opposite() == t
  {
  }

  /** A tunnel and its opposite name both directions between them. */
  lemma OppositeCovers(t: TunnelType, u: TunnelType)
    ensures u == t || u == t.Opposite()
  {
  }

  /** Different directions have different names. */
  lemma StringInjective(t: TunnelType, u: TunnelType)
    requires t.String() == u.String()
    ensures t == u
  {
  }

  /** Every entry with a space decomposes into what the case lemmas take: a
      space-free token, one space, and colon-free pieces joined by `:`. */
  lemma EntryPieces(v: string)
    requires ' ' in v
    ensures var (token, rest, _) := Cut(v, ' ');
      var parts := Split(rest, ':');
      && ' ' !in token
      && |parts| >= 1
      && (forall i :: 0 <= i < |parts| ==> ':' !in parts[i])
      && v == token + " " + Join(parts, ':')
  {
  }

  /** An entry whose first word is not a direction token is refused with
      that word, whatever follows the space. */
  lemma {:induction false} ParseUnknownType(token: string, rest: string)
    requires ' ' !in token
    requires DirectionOf(token) == None
    ensures ParseTunnel(token + " " + rest) == Failure(UnknownType(token))
  {
    CutAtFirst(token, rest, ' ');
  }

  /** An entry made of a direction token, one space and colon-free pieces is
      parsed from exactly those pieces: the tunnel's map is the one
      `AddressesOf` builds from them, or the entry is refused with the token. */
  lemma {:induction false} ParsePieces(token: string, parts: seq<string>)
    requires ' ' !in token
    requires DirectionOf(token).Some?
    requires |parts| >= 1
    requires forall i :: 0 <= i < |parts| ==> ':' !in parts[i]
    ensures var d := DirectionOf(token).value;
      ParseTunnel(token + " " + Join(parts, ':'))
        == match AddressesOf(d, parts)
           case None => Failure(BadAddresses(token))
           case Some(m) => Success(Tunnel(m, d))
  {
    SplitJoin(parts, ':');
    CutAtFirst(token, Join(parts, ':'), ' ');
  }

  /** Three pieces `port:host:port`: the tunnel binds `127.0.0.1:port` in its
      own direction and targets `host:port` in the opposite one. The pieces
      may hold spaces: only the first space of the entry is significant. */
  lemma {:induction false} ParseThreeParts(token: string, p0: string, p1: string, p2: string)
    requires ' ' !in token
    requires DirectionOf(token).Some?
    requires ':' !in p0 && ':' !in p1 && ':' !in p2
    ensures var d := DirectionOf(token).value;
      ParseTunnel(token + " " + p0 + ":" + p1 + ":" + p2)
        == Success(Tunnel(map[d := DefaultBindHost + ":" + p0, d.Opposite() := p1 + ":" + p2], d))
  {
    var parts := [p0, p1, p2];
    assert Join(parts, ':') == p0 + ":" + p1 + ":" + p2 by {
      assert parts[1..][1..] == [p2];
      assert Join(parts[1..], ':') == p1 + ":" + p2;
    }
    assert token + " " + Join(parts, ':') == token + " " + p0 + ":" + p1 + ":" + p2;
    ParsePieces(token, parts);
  }

  /** Four pieces `host:port:host:port`: the first two join into the bind
      address, the last two into the target address. */
  lemma {:induction false} ParseFourParts(token: string, p0: string, p1: string, p2: string, p3: string)
    requires ' ' !in token
    requires DirectionOf(token).Some?
    requires ':' !in p0 && ':' !in p1 && ':' !in p2 && ':' !in p3
    ensures var d := DirectionOf(token).value;
      ParseTunnel(token + " " + p0 + ":" + p1 + ":" + p2 + ":" + p3)
        == Success(Tunnel(map[d := p0 + ":" + p1, d.Opposite() := p2 + ":" + p3], d))
  {
    var parts := [p0, p1, p2, p3];
    assert Join(parts, ':') == p0 + ":" + p1 + ":" + p2 + ":" + p3 by {
      assert parts[1..][1..][1..] == [p3];
      assert Join(parts[1..][1..], ':') == p2 + ":" + p3;
      assert Join(parts[1..], ':') == p1 + ":" + p2 + ":" + p3;
    }
    assert token + " " + Join(parts, ':') == token + " " + p0 + ":" + p1 + ":" + p2 + ":" + p3;
    ParsePieces(token, parts);
  }

  /** Any other number of colon-separated pieces is refused, and the error
      quotes the direction token rather than the address text. */
  lemma {:induction false} ParseBadPartCount(token: string, parts: seq<string>)
    requires ' ' !in token
    requires DirectionOf(token).Some?
    requires |parts| >= 1 && |parts| != 3 && |parts| != 4
    requires forall i :: 0 <= i < |parts| ==> ':' !in parts[i]
    ensures ParseTunnel(token + " " + Join(parts, ':')) == Failure(BadAddresses(token))
  {
    ParsePieces(token, parts);
  }

  /** Every accepted entry is one of the two shapes above: a direction token,
      one space, and three or four colon-separated pieces that rebuild the
      tunnel's bind and target addresses. */
  lemma {:induction false} ParseSuccessShape(v: string)
    requires ParseTunnel(v).Success?
    ensures var (token, adr, _) := Cut(v, ' ');
      var parts := Split(adr, ':');
      var t := ParseTunnel(v).value;
      && v == token + " " + Join(parts, ':')
      && ' ' !in token
      && DirectionOf(token) == Some(t.tunnelType)
      && (|parts| == 3 || |parts| == 4)
      && (|parts| == 3 ==> Bind(t) == DefaultBindHost + ":" + parts[0] && Target(t) == parts[1] + ":" + parts[2])
      && (|parts| == 4 ==> Bind(t) == parts[0] + ":" + parts[1] && Target(t) == parts[2] + ":" + parts[3])
  {
  }

  /** The local example entry `L 8080:127.0.0.1:80`, built from its token
      and its three pieces: bind 127.0.0.1:8080, target 127.0.0.1:80. */
  lemma ParseLocalExample(token: string, p0: string, p1: string, p2: string)
    requires token == "L" && p0 == "8080" && p1 == "127.0.0.1" && p2 == "80"
    ensures ParseTunnel(token + " " + p0 + ":" + p1 + ":" + p2)
      == Success(Tunnel(map[Local := "127.0.0.1:8080", Remote := "127.0.0.1:80"], Local))
  {
    ParseThreeParts(token, p0, p1, p2);
    assert DefaultBindHost + ":" + p0 == "127.0.0.1:8080";
    assert p1 + ":" + p2 == "127.0.0.1:80";
  }

  /** The remote example entry `-R host:9090:host:3000`, built from its token
      and its four pieces, with an explicit bind host. */
  lemma ParseRemoteExample(token: string, p0: string, p1: string, p2: string, p3: string)
    requires token == "-R" && p0 == "host" && p1 == "9090" && p2 == "host" && p3 == "3000"
    ensures ParseTunnel(token + " " + p0 + ":" + p1 + ":" + p2 + ":" + p3)
      == Success(Tunnel(map[Remote := "host:9090", Local := "host:3000"], Remote))
  {
    ParseFourParts(token, p0, p1, p2, p3);
    assert p0 + ":" + p1 == "host:9090";
    assert p2 + ":" + p3 == "host:3000";
  }

  /** A client of `Set`: the local example entry is appended, then an entry
      with an unknown direction token is refused and changes nothing. */
  method SetExample(list: TunnelList, token: string, p0: string, p1: string, p2: string)
    requires list.Valid()
    requires token == "L" && p0 == "8080" && p1 == "127.0.0.1" && p2 == "80"
    modifies list
    ensures list.Valid()
    ensures |list.entries| == |old(list.entries)| + 1
  {
    var err := list.Set(token + " " + p0 + ":" + p1 + ":" + p2);
    ParseLocalExample(token, p0, p1, p2);
    assert err == None;
    var t := list.entries[|list.entries| - 1];
    assert Bind(t) == "127.0.0.1:8080" && Target(t) == "127.0.0.1:80";
    ParseUnknownType(p0, p1);
    err := list.Set(p0 + " " + p1);
    assert err == Some(UnknownType(p0));
    assert list.entries[|list.entries| - 1] == t;
  }
}
