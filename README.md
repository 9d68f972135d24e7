# autossh tunnel entries, in Dafny

autossh forwards ports over an SSH session. Its `setup()` registers a
`-tunnels` flag (setup.go:83) whose compact text entries, such as
`L 8080:127.0.0.1:80` or `-R host:9090:host:3000`, are parsed one by one into
the `tunnels` list. `main()` in main.go never calls `setup()` and never reads
`tunnels`; it forwards a single port given by `-rport` and `-lport`. This project
models how an entry becomes a tunnel and how tunnels are collected:

- `TunnelType` is the direction, `Local` or `Remote`. The names follow the
  usual `ssh -L` and `ssh -R` convention (bind here and dial there, or the
  reverse), but neither setup.go nor main.go acts on a `TunnelType`. It has `String` (its name
  by table lookup) and `opposite` (the other direction).
- A `Tunnel` is a direction plus a map from directions to `host:port` text.
  The bind address sits under the tunnel's own direction. The target address
  sits under the opposite direction.
- `Tunnels` is the ordered list of tunnels. Its `Set` method parses one entry.
  Parsing cuts the entry at the first space. The word before the space must be
  `-R`, `R`, `-L` or `L`. The rest is split on `:` into pieces:
  - three pieces `port:host:port` bind `127.0.0.1:port`;
  - four pieces `host:port:host:port` give both addresses in full;
  - anything else is an error.
  On success `Set` appends one tunnel; on error it returns the error and the list
  is left as it was.

Files:

- `gostrings.dfy` (module `GoStrings`): Go's `strings.Cut` and `strings.Split`
  for a one-character separator, and `strings.Join`. The contracts say `Cut`
  splits at the first separator. They say `Split` yields separator-free pieces
  that join back to the input. The lemma `SplitJoin` shows that `Split` is the
  only such decomposition.
- `setup.dfy` (module `Setup`): the direction type, the tunnel value and the
  pure function `ParseTunnel`. `ParseTunnel` states, as a value, what `Set`
  does with one entry. The class `TunnelList` holds the list as a `seq` field.
  Its method `Set` follows the Go code branch by branch: it builds the address
  map with two keyed updates, returns early on each error, and appends on
  success. Its postcondition ties the new list to `ParseTunnel`. The lemmas
  cover each shape of entry, using the two examples above.

Every entry falls under exactly one lemma. The lemma `EntryPieces` proves that
every entry with a space is `token + " " + Join(parts, ':')`, where `token` has
no space and `parts` is a non-empty list of colon-free pieces. By `SplitJoin`
that list is unique. The cases are:

- `ParseTunnel`'s own contract: no space.
- `ParseUnknownType`: an unknown token.
- `ParseThreeParts`, `ParseFourParts`: three or four pieces.
- `ParseBadPartCount`: any other number of pieces.

## Model

| member | source | states |
|---|---|---|
| `Setup.TunnelType.Ordinal` | setup.go:30-33 | the `iota` values: `Local` is 0, `Remote` is 1, both valid indices of the name table |
| `Setup.TunnelType.String` | setup.go:21-23 | `Local` is named "local" and `Remote` is named "remote" |
| `Setup.StringInjective` | setup.go:21-23 | the two directions have different names |
| `Setup.TunnelType.Opposite` | setup.go:24-29 | `opposite` never returns its argument and swaps the ordinals 0 and 1 |
| `Setup.OppositeInvolutive` | setup.go:24-29 | applying `opposite` twice gives back the direction |
| `Setup.OppositeCovers` | setup.go:24-29 | every direction is either `t` or `t.opposite()`, so the two keys of a tunnel cover both directions |
| `GoStrings.Cut` | setup.go:44-45 | `found` holds exactly when the separator occurs; then the input is `before + sep + after` with no separator in `before`; otherwise `before` is the whole input and `after` is empty |
| `GoStrings.CutAtFirst` | setup.go:44 | a separator-free prefix followed by the separator is exactly what `Cut` returns, with the remainder after it |
| `GoStrings.Split` | setup.go:54 | at least one piece, no piece holds the separator, and the pieces joined with the separator give back the input (so `""` splits into `[""]`) |
| `GoStrings.SplitNoSeparator` | setup.go:54 | a string without the separator splits into itself alone |
| `GoStrings.SplitAfterPiece` | setup.go:54 | splitting `piece + sep + rest` gives `piece` followed by the pieces of `rest` |
| `GoStrings.SplitJoin` | setup.go:54 | splitting the join of separator-free pieces gives back exactly those pieces |
| `Setup.DirectionOf` | setup.go:46-53 | "-R" or "R" is exactly the tokens naming `Remote`; "-L" or "L" is exactly the tokens naming `Local`; every other token names none |
| `Setup.AddressesOf` | setup.go:55-64 | an address map exists exactly for 3 or 4 pieces; its keys are the direction and its opposite; for 3 pieces it binds "127.0.0.1:"+p0 and targets p1+":"+p2; for 4 pieces it binds p0+":"+p1 and targets p2+":"+p3 |
| `Setup.ParseTunnel` | setup.go:40-67 | an accepted entry contains a space and yields a tunnel whose map has exactly the keys `tunnelType` and `opposite(tunnelType)`; an entry without a space is refused with `MissingType` |
| `Setup.ParseUnknownType` | setup.go:46-53 | if the word before the first space is not a direction token, the entry is refused with `UnknownType` of that word, whatever follows |
| `Setup.ParsePieces` | setup.go:44-64 | an entry made of a direction token, one space and colon-free pieces is parsed from exactly those pieces: the map `AddressesOf` builds from them under that direction, or `BadAddresses` of the token |
| `Setup.ParseThreeParts` | setup.go:54-58 | `token p0:p1:p2` with a direction token gives a tunnel of that direction, mapping its own direction to "127.0.0.1:"+p0 and the opposite one to p1+":"+p2 |
| `Setup.ParseFourParts` | setup.go:54-61 | `token p0:p1:p2:p3` gives a tunnel mapping its own direction to p0+":"+p1 and the opposite one to p2+":"+p3 |
| `Setup.ParseBadPartCount` | setup.go:54-63 | any other number of colon-separated pieces is refused with `BadAddresses`, which quotes the direction token |
| `Setup.EntryPieces` | setup.go:44-54 | every entry with a space is a space-free token, one space, and a non-empty list of colon-free pieces joined by `:`; these are the inputs of the case lemmas |
| `Setup.ParseSuccessShape` | setup.go:44-61 | every accepted entry is a direction token naming the tunnel's direction, one space, and 3 or 4 pieces that rebuild its bind and target addresses |
| `Setup.ParseLocalExample` | setup.go:56-58 | `L 8080:127.0.0.1:80` is a `Local` tunnel binding 127.0.0.1:8080 and targeting 127.0.0.1:80 |
| `Setup.ParseRemoteExample` | setup.go:59-61 | `-R host:9090:host:3000` is a `Remote` tunnel binding host:9090 and targeting host:3000 |
| `Setup.TunnelList.constructor` | setup.go:39 | a fresh list (the zero Go slice) is empty and satisfies the list invariant |
| `Setup.TunnelList.Set` | setup.go:40-68 | on success: no error, and exactly the parsed tunnel appended at the end with earlier entries unchanged. On failure: the parse error comes back and the list is unchanged. It keeps the invariant that every entry's map has exactly the two direction keys |
| `Setup.SetExample` | setup.go:40-68 | a caller can see `Set` append the local example and then refuse an entry with an unknown token, leaving the appended tunnel in place |

## Left out

- `setup()` (setup.go:72-102): this registers and parses flags through the `flagutil` and TOML libraries and sets up the logger. These are library calls that are not part of this model.
- The process-global variables (setup.go:16-19): the tunnel list is a `TunnelList` object instead.
- `Tunnels.String` (setup.go:69-71): it depends on how `fmt.Sprint` formats Go structs and maps.
- Error message text: each of the three error returns is one `ParseError` constructor. `MissingType` carries the entry, `UnknownType` and `BadAddresses` carry the direction token, as the Go messages quote them. The formatting is not modelled.
- Setup.TunnelType.String, Setup.TunnelType.Opposite: Go's `TunnelType` is a `uint`. On a value other than 0 or 1, `String` would panic with an index out of range, and `opposite` would return `Local` (setup.go:24-28). The datatype has only the two constants, so neither case can be expressed.
- Setup.TunnelList.Set: the Go map made before the first error check (setup.go:42) is modelled as an empty map value; the allocation itself has no counterpart.
- All of main.go: SSH configuration, reading key files, dialling, listening, accepting, and the two `io.Copy` goroutines of `runTunnel`. This is network and file I/O plus concurrency.
- The code accepts exactly `-L`, `L`, `-R` and `R` as direction tokens (setup.go:46-53), and the model does the same. The code also does not check the address pieces: empty pieces and spaces inside pieces are accepted as they are, and the model keeps that.
- Byte strings: Go strings are bytes, while the model's strings are sequences of characters. `Cut` on `' '` and `Split` on `':'` agree on every valid UTF-8 entry, because those bytes never occur inside a multi-byte sequence; an entry that is not valid UTF-8 cannot be represented.
