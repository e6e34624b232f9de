/**
 * The canonical config bytes `config_hash` in `components/vault-nav/src/lib.rs` hashes:
 * every tracked key that is present, in order, as `key=value` and a newline.
 */
module ConfigBytes {
  import opened ServiceDoc

  type Config = map<string, string>

  const KEY_COUNT: nat := 32

  // The tracked keys, in lexicographic order.
  function Key(i: nat): string {
    match i
    case 0 => "applied_leverage"
    case 1 => "capacity_binding"
    case 2 => "chain_id"
    case 3 => "collateral_yield_apy"
    case 4 => "compound_cadence_hours"
    case 5 => "compound_threshold_usd"
    case 6 => "delta_band_pct"
    case 7 => "exit_route_id"
    case 8 => "exit_settlement_days"
    case 9 => "funding_floor_apr"
    case 10 => "hedge_leverage"
    case 11 => "hf_deleverage_bps"
    case 12 => "hf_floor_bps"
    case 13 => "hf_target_bps"
    case 14 => "hl_coin"
    case 15 => "inputs_block_lag"
    case 16 => "irm_address"
    case 17 => "lltv"
    case 18 => "margin_restore_pct"
    case 19 => "margin_trim_pct"
    case 20 => "market_id"
    case 21 => "morpho_address"
    case 22 => "oracle_address"
    case 23 => "pool_address"
    case 24 => "pool_fee"
    case 25 => "reserve_fraction"
    case 26 => "risk_preset"
    case 27 => "swap_router"
    case 28 => "twap_window_secs"
    case 29 => "usdc_address"
    case 30 => "usde_address"
    case 31 => "vault_address"
    case _ => ""
  }

  const KEYS: seq<string> := seq(KEY_COUNT, i requires i >= 0 => Key(i))

  function Entry(key: string, value: string): string {
    key + "=" + value + "\n"
  }

  // The bytes of the keys, from the front.
  function Encode(keys: seq<string>, config: Config): string {
    if keys == [] then ""
    else (if keys[0] in config then Entry(keys[0], config[keys[0]]) else "") + Encode(keys[1..], config)
  }

  lemma EncodeNext(keys: seq<string>, i: nat, config: Config)
    requires i < |keys|
    ensures Encode(keys[i..], config)
         == (if keys[i] in config then Entry(keys[i], config[keys[i]]) else "") + Encode(keys[i + 1..], config)
  {
    assert keys[i..][1..] == keys[i + 1..];
  }

  lemma Regroup(before: string, entry: string, after: string)
    ensures before + (entry + after) == before + entry + after
  {
  }

  /** The buffer `config_hash` builds before hashing, over any list of keys. */
  method AppendKeys(keys: seq<string>, config: Config) returns (buf: string)
    ensures buf == Encode(keys, config)
  {
    buf := "";
    for i := 0 to |keys|
      invariant buf + Encode(keys[i..], config) == Encode(keys, config)
    {
      var key := keys[i];
      EncodeNext(keys, i, config);
      if key in config {
        Regroup(buf, Entry(key, config[key]), Encode(keys[i + 1..], config));
        buf := buf + key + "=" + config[key] + "\n";
      } else {
        Regroup(buf, "", Encode(keys[i + 1..], config));
      }
    }
  }

  method CanonicalBytes(config: Config) returns (buf: string)
    ensures buf == Encode(KEYS, config)
  {
    buf := AppendKeys(KEYS, config);
  }

  // ---------------------------------------------------------------- reading the bytes back

  predicate Agree(key: string, a: Config, b: Config) {
    (key in a <==> key in b) && (key in a ==> a[key] == b[key])
  }

  ghost predicate Legible(keys: seq<string>) {
    && (forall i | 0 <= i < |keys| :: '=' !in keys[i])
    && (forall i, j | 0 <= i < j < |keys| :: keys[i] != keys[j])
  }

  ghost predicate NoNewlines(keys: seq<string>, config: Config) {
    forall i | 0 <= i < |keys| && keys[i] in config :: '\n' !in config[keys[i]]
  }

  // Text up to the first separator can be read back.
  lemma {:induction false} SplitAt(x: string, y: string, sep: char, u: string, v: string)
    requires sep !in x && sep !in y
    requires x + [sep] + u == y + [sep] + v
    ensures x == y && u == v
  {
    if x == [] || y == [] {
      assert (x + [sep] + u)[0] == (y + [sep] + v)[0];
      assert x == y;
      assert u == (x + [sep] + u)[1..];
      assert v == (y + [sep] + v)[1..];
    } else {
      assert (x + [sep] + u)[0] == x[0] && (y + [sep] + v)[0] == y[0];
      assert x[1..] + [sep] + u == (x + [sep] + u)[1..];
      assert y[1..] + [sep] + v == (y + [sep] + v)[1..];
      SplitAt(x[1..], y[1..], sep, u, v);
      assert x == [x[0]] + x[1..] && y == [y[0]] + y[1..];
    }
  }

  lemma DifferentKeysShow(k: string, rest: string, l: string, tail: string)
    requires '=' !in k && '=' !in l && k != l
    ensures k + ['='] + rest != l + ['='] + tail
  {
    if k + ['='] + rest == l + ['='] + tail {
      SplitAt(k, l, '=', rest, tail);
    }
  }

  lemma EntryStarts(key: string, value: string, tail: string)
    ensures Entry(key, value) + tail == key + ['='] + (value + ['\n'] + tail)
  {
  }

  // What a non-empty encoding starts with: one of its keys and the equals sign.
  lemma {:induction false} StartsWithKey(keys: seq<string>, config: Config) returns (i: nat, rest: string)
    requires Encode(keys, config) != ""
    ensures i < |keys| && Encode(keys, config) == keys[i] + ['='] + rest
  {
    if keys[0] in config {
      i := 0;
      rest := config[keys[0]] + ['\n'] + Encode(keys[1..], config);
      EntryStarts(keys[0], config[keys[0]], Encode(keys[1..], config));
    } else {
      assert Encode(keys, config) == Encode(keys[1..], config);
      i, rest := StartsWithKey(keys[1..], config);
      i := i + 1;
    }
  }

  // A present first key cannot be mistaken for the encoding of the others.
  lemma FirstKeyShows(key: string, keys: seq<string>, value: string, tail: string, b: Config)
    requires '=' !in key
    requires forall i | 0 <= i < |keys| :: '=' !in keys[i] && keys[i] != key
    ensures Entry(key, value) + tail != Encode(keys, b)
  {
    EntryStarts(key, value, tail);
    if Encode(keys, b) != "" {
      var i, rest := StartsWithKey(keys, b);
      DifferentKeysShow(key, value + ['\n'] + tail, keys[i], rest);
    }
  }

  lemma {:induction false} EncodeAgrees(keys: seq<string>, a: Config, b: Config)
    requires forall i | 0 <= i < |keys| :: Agree(keys[i], a, b)
    ensures Encode(keys, a) == Encode(keys, b)
  {
    if keys != [] {
      assert Agree(keys[0], a, b);
      EncodeAgrees(keys[1..], a, b);
    }
  }

  // Two configs without newlines in their values have the same bytes exactly when
  // they agree, present or absent, on every key.
  lemma {:induction false} EncodeInjective(keys: seq<string>, a: Config, b: Config)
    requires Legible(keys) && NoNewlines(keys, a) && NoNewlines(keys, b)
    ensures Encode(keys, a) == Encode(keys, b) <==> forall i | 0 <= i < |keys| :: Agree(keys[i], a, b)
  {
    if forall i | 0 <= i < |keys| :: Agree(keys[i], a, b) {
      EncodeAgrees(keys, a, b);
    }
    if keys != [] && Encode(keys, a) == Encode(keys, b) {
      SameHead(keys, a, b);
      var rest := keys[1..];
      EncodeInjective(rest, a, b);
      forall i | 0 <= i < |keys| ensures Agree(keys[i], a, b) {
        assert i > 0 ==> keys[i] == rest[i - 1];
      }
    }
  }

  lemma SameHead(keys: seq<string>, a: Config, b: Config)
    requires keys != [] && Legible(keys) && NoNewlines(keys, a) && NoNewlines(keys, b)
    requires Encode(keys, a) == Encode(keys, b)
    ensures Agree(keys[0], a, b) && Encode(keys[1..], a) == Encode(keys[1..], b)
  {
    var key, rest := keys[0], keys[1..];
    var ta, tb := Encode(rest, a), Encode(rest, b);
    if key in a && key in b {
      EntryStarts(key, a[key], ta);
      EntryStarts(key, b[key], tb);
      SplitAt(key, key, '=', a[key] + ['\n'] + ta, b[key] + ['\n'] + tb);
      SplitAt(a[key], b[key], '\n', ta, tb);
    } else if key in a {
      FirstKeyShows(key, rest, a[key], ta, b);
    } else if key in b {
      FirstKeyShows(key, rest, b[key], tb, a);
    } else {
      assert "" + ta == ta && "" + tb == tb;
    }
  }

  // ---------------------------------------------------------------- newlines

  lemma {:induction false} EncodeSplits(xs: seq<string>, ys: seq<string>, config: Config)
    ensures Encode(xs + ys, config) == Encode(xs, config) + Encode(ys, config)
  {
    if xs == [] {
      assert xs + ys == ys;
    } else {
      assert (xs + ys)[1..] == xs[1..] + ys;
      EncodeSplits(xs[1..], ys, config);
    }
  }

  lemma {:induction false} EncodeNothing(keys: seq<string>, config: Config)
    requires forall i | 0 <= i < |keys| :: keys[i] !in config
    ensures Encode(keys, config) == ""
  {
    if keys != [] {
      EncodeNothing(keys[1..], config);
    }
  }

  lemma EncodeTwo(keys: seq<string>, i: nat, j: nat, config: Config)
    requires Legible(keys) && i < j < |keys| && config.Keys == {keys[i], keys[j]}
    ensures Encode(keys, config) == Entry(keys[i], config[keys[i]]) + Entry(keys[j], config[keys[j]])
  {
    var front, back := keys[..j], keys[j..];
    assert keys == front + back;
    EncodeSplits(front, back, config);
    assert back[0] == keys[j];
    forall k | 0 < k < |back| ensures back[k] !in config {
      assert back[k] == keys[j + k];
    }
    assert forall k | 0 <= k < j && k != i :: keys[k] !in config;
    EncodeFront(front, i, config);
    EncodeFront(back, 0, config);
  }

  // One present key among these, whatever else the config holds.
  lemma EncodeFront(keys: seq<string>, i: nat, config: Config)
    requires i < |keys| && keys[i] in config
    requires forall k | 0 <= k < |keys| && k != i :: keys[k] !in config
    ensures Encode(keys, config) == Entry(keys[i], config[keys[i]])
  {
    assert keys == keys[..i] + keys[i..];
    EncodeSplits(keys[..i], keys[i..], config);
    EncodeNothing(keys[..i], config);
    EncodeNext(keys, i, config);
    EncodeNothing(keys[i + 1..], config);
  }

  // A newline does break this: one value can spell out a later key's entry.
  lemma NewlineCollides(keys: seq<string>, i: nat, j: nat, v: string, w: string)
    requires Legible(keys) && i < j < |keys|
    ensures Encode(keys, map[keys[i] := v + "\n" + keys[j] + "=" + w])
         == Encode(keys, map[keys[i] := v, keys[j] := w])
  {
    var spelled := v + "\n" + keys[j] + "=" + w;
    var a: Config := map[keys[i] := spelled];
    EncodeFront(keys, i, a);
    EncodeTwo(keys, i, j, map[keys[i] := v, keys[j] := w]);
    Spelled(keys[i], v, keys[j], w);
  }

  lemma Spelled(key: string, v: string, other: string, w: string)
    ensures Entry(key, v + "\n" + other + "=" + w) == Entry(key, v) + Entry(other, w)
  {
  }

  // ---------------------------------------------------------------- the tracked keys

  // Length, fourth character and last character: enough to tell the tracked keys apart.
  function Mark(key: string): nat {
    if |key| < 4 then 0
    else |key| * 0x1_0000 + key[3] as int * 0x100 + key[|key| - 1] as int
  }

  function KeyMark(i: nat): nat {
    match i
    case 0 => 0x106c65
    case 1 => 0x106167
    case 2 => 0x86964
    case 3 => 0x146c79
    case 4 => 0x167073
    case 5 => 0x167064
    case 6 => 0xe7474
    case 7 => 0xd7464
    case 8 => 0x147473
    case 9 => 0x116472
    case 10 => 0xe6765
    case 11 => 0x116473
    case 12 => 0xc6673
    case 13 => 0xd7473
    case 14 => 0x7636e
    case 15 => 0x107567
    case 16 => 0xb5f73
    case 17 => 0x47676
    case 18 => 0x126774
    case 19 => 0xf6774
    case 20 => 0x96b64
    case 21 => 0xe7073
    case 22 => 0xe6373
    case 23 => 0xc6c73
    case 24 => 0x86c65
    case 25 => 0x10656e
    case 26 => 0xb6b74
    case 27 => 0xb7072
    case 28 => 0x107073
    case 29 => 0xc6373
    case 30 => 0xc6573
    case 31 => 0xd6c73
    case _ => 0
  }

  lemma KeyMarks0(i: nat)
    requires 0 <= i < 4
    ensures Mark(Key(i)) == KeyMark(i) && '=' !in Key(i)
  {
    match i
    case 0 =>
    case 1 =>
    case 2 =>
    case 3 =>
  }

  lemma KeyMarks1(i: nat)
    requires 4 <= i < 8
    ensures Mark(Key(i)) == KeyMark(i) && '=' !in Key(i)
  {
    match i
    case 4 =>
    case 5 =>
    case 6 =>
    case 7 =>
  }

  lemma KeyMarks2(i: nat)
    requires 8 <= i < 12
    ensures Mark(Key(i)) == KeyMark(i) && '=' !in Key(i)
  {
    match i
    case 8 =>
    case 9 =>
    case 10 =>
    case 11 =>
  }

  lemma KeyMarks3(i: nat)
    requires 12 <= i < 16
    ensures Mark(Key(i)) == KeyMark(i) && '=' !in Key(i)
  {
    match i
    case 12 =>
    case 13 =>
    case 14 =>
    case 15 =>
  }

  lemma KeyMarks4(i: nat)
    requires 16 <= i < 20
    ensures Mark(Key(i)) == KeyMark(i) && '=' !in Key(i)
  {
    match i
    case 16 =>
    case 17 =>
    case 18 =>
    case 19 =>
  }

  lemma KeyMarks5(i: nat)
    requires 20 <= i < 24
    ensures Mark(Key(i)) == KeyMark(i) && '=' !in Key(i)
  {
    match i
    case 20 =>
    case 21 =>
    case 22 =>
    case 23 =>
  }

  lemma KeyMarks6(i: nat)
    requires 24 <= i < 28
    ensures Mark(Key(i)) == KeyMark(i) && '=' !in Key(i)
  {
    match i
    case 24 =>
    case 25 =>
    case 26 =>
    case 27 =>
  }

  lemma KeyMarks7(i: nat)
    requires 28 <= i < 32
    ensures Mark(Key(i)) == KeyMark(i) && '=' !in Key(i)
  {
    match i
    case 28 =>
    case 29 =>
    case 30 =>
    case 31 =>
  }

  lemma KeyMarks(i: nat)
    requires i < KEY_COUNT
    ensures Mark(Key(i)) == KeyMark(i) && '=' !in Key(i)
  {
    match i / 4
    case 0 => KeyMarks0(i);
    case 1 => KeyMarks1(i);
    case 2 => KeyMarks2(i);
    case 3 => KeyMarks3(i);
    case 4 => KeyMarks4(i);
    case 5 => KeyMarks5(i);
    case 6 => KeyMarks6(i);
    case _ => KeyMarks7(i);
  }

  // The position of a key in the list, from its mark.
  function Position(mark: nat): nat {
    match mark
    case 0x106c65 => 0
    case 0x106167 => 1
    case 0x86964 => 2
    case 0x146c79 => 3
    case 0x167073 => 4
    case 0x167064 => 5
    case 0xe7474 => 6
    case 0xd7464 => 7
    case 0x147473 => 8
    case 0x116472 => 9
    case 0xe6765 => 10
    case 0x116473 => 11
    case 0xc6673 => 12
    case 0xd7473 => 13
    case 0x7636e => 14
    case 0x107567 => 15
    case 0xb5f73 => 16
    case 0x47676 => 17
    case 0x126774 => 18
    case 0xf6774 => 19
    case 0x96b64 => 20
    case 0xe7073 => 21
    case 0xe6373 => 22
    case 0xc6c73 => 23
    case 0x86c65 => 24
    case 0x10656e => 25
    case 0xb6b74 => 26
    case 0xb7072 => 27
    case 0x107073 => 28
    case 0xc6373 => 29
    case 0xc6573 => 30
    case 0xd6c73 => 31
    case _ => KEY_COUNT
  }

  lemma PositionOfMark(i: nat)
    requires i < KEY_COUNT
    ensures Position(KeyMark(i)) == i
  {
    match i
    case 0 =>
    case 1 =>
    case 2 =>
    case 3 =>
    case 4 =>
    case 5 =>
    case 6 =>
    case 7 =>
    case 8 =>
    case 9 =>
    case 10 =>
    case 11 =>
    case 12 =>
    case 13 =>
    case 14 =>
    case 15 =>
    case 16 =>
    case 17 =>
    case 18 =>
    case 19 =>
    case 20 =>
    case 21 =>
    case 22 =>
    case 23 =>
    case 24 =>
    case 25 =>
    case 26 =>
    case 27 =>
    case 28 =>
    case 29 =>
    case 30 =>
    case 31 =>
  }

  lemma KeysAreLegible()
    ensures Legible(KEYS)
  {
    forall i | 0 <= i < |KEYS| ensures '=' !in KEYS[i] && Position(Mark(KEYS[i])) == i {
      KeyMarks(i);
      PositionOfMark(i);
    }
  }

  // Operators hash the same bytes exactly when their configs agree on every tracked key.
  lemma ConfigBytesInjective(a: Config, b: Config)
    requires NoNewlines(KEYS, a) && NoNewlines(KEYS, b)
    ensures Encode(KEYS, a) == Encode(KEYS, b) <==> forall i | 0 <= i < KEY_COUNT :: Agree(KEYS[i], a, b)
  {
    KeysAreLegible();
    EncodeInjective(KEYS, a, b);
  }

  ghost predicate SameOn(keys: seq<string>, a: Config, b: Config) {
    forall i | 0 <= i < |keys| :: Agree(keys[i], a, b)
  }

  lemma AgreeOn(i: nat, key: string, a: Config, b: Config)
    requires SameOn(KEYS, a, b) && i < KEY_COUNT && Key(i) == key
    ensures Agree(key, a, b)
  {
    assert KEYS[i] == key;
  }

  ghost predicate SameVenue(a: Config, b: Config) {
    && Agree("irm_address", a, b) && Agree("lltv", a, b) && Agree("market_id", a, b) && Agree("morpho_address", a, b)
    && Agree("oracle_address", a, b) && Agree("pool_address", a, b) && Agree("pool_fee", a, b)
  }

  ghost predicate SameParties(a: Config, b: Config) {
    && Agree("chain_id", a, b) && Agree("inputs_block_lag", a, b) && Agree("swap_router", a, b)
    && Agree("twap_window_secs", a, b) && Agree("usdc_address", a, b) && Agree("usde_address", a, b)
    && Agree("vault_address", a, b)
  }

  lemma VenueAgrees(a: Config, b: Config)
    requires SameOn(KEYS, a, b)
    ensures SameVenue(a, b)
  {
    AgreeOn(16, "irm_address", a, b);
    AgreeOn(17, "lltv", a, b);
    AgreeOn(20, "market_id", a, b);
    AgreeOn(21, "morpho_address", a, b);
    AgreeOn(22, "oracle_address", a, b);
    AgreeOn(23, "pool_address", a, b);
    AgreeOn(24, "pool_fee", a, b);
  }

  lemma PartiesAgree(a: Config, b: Config)
    requires SameOn(KEYS, a, b)
    ensures SameParties(a, b)
  {
    AgreeOn(2, "chain_id", a, b);
    AgreeOn(15, "inputs_block_lag", a, b);
    AgreeOn(27, "swap_router", a, b);
    AgreeOn(28, "twap_window_secs", a, b);
    AgreeOn(29, "usdc_address", a, b);
    AgreeOn(30, "usde_address", a, b);
    AgreeOn(31, "vault_address", a, b);
  }

  lemma FieldsAgree(
      a: Config, market: MarketFields, server: ServerFields, b: Config, market': MarketFields, server': ServerFields)
    requires CarriesFields(a, market, server) && CarriesFields(b, market', server')
    requires SameVenue(a, b) && SameParties(a, b)
    ensures market == market' && server == server'
  {
  }

  lemma DeploymentAgrees(
      knobs: Config, market: MarketFields, server: ServerFields,
      knobs': Config, market': MarketFields, server': ServerFields)
    requires SameOn(KEYS, ComponentConfigFor(knobs, market, server), ComponentConfigFor(knobs', market', server'))
    ensures market == market' && server == server'
  {
    var a, b := ComponentConfigFor(knobs, market, server), ComponentConfigFor(knobs', market', server');
    KnobsCannotMoveServerFields(knobs, market, server);
    KnobsCannotMoveServerFields(knobs', market', server');
    VenueAgrees(a, b);
    PartiesAgree(a, b);
    FieldsAgree(a, market, server, b, market', server');
  }

  // A tracked knob no server field shadows.
  lemma KnobAgrees(
      i: nat, key: string, knobs: Config, market: MarketFields, server: ServerFields,
      knobs': Config, market': MarketFields, server': ServerFields)
    requires SameOn(KEYS, ComponentConfigFor(knobs, market, server), ComponentConfigFor(knobs', market', server'))
    requires i < KEY_COUNT && Key(i) == key && key !in SERVER_KEYS
    ensures Agree(key, knobs, knobs')
  {
    KnobsCannotMoveServerFields(knobs, market, server);
    KnobsCannotMoveServerFields(knobs', market', server');
    AgreeOn(i, key, ComponentConfigFor(knobs, market, server), ComponentConfigFor(knobs', market', server'));
  }

  // The operators of two loops hash the same bytes only when every server and market
  // field of the two is the same, whatever the strategists' knobs hold, and so are the
  // leverage and the risk preset the component acts on.
  lemma BytesPinTheDeployment(
      knobs: Config, market: MarketFields, server: ServerFields,
      knobs': Config, market': MarketFields, server': ServerFields)
    requires NoNewlines(KEYS, ComponentConfigFor(knobs, market, server))
    requires NoNewlines(KEYS, ComponentConfigFor(knobs', market', server'))
    requires Encode(KEYS, ComponentConfigFor(knobs, market, server))
          == Encode(KEYS, ComponentConfigFor(knobs', market', server'))
    ensures market == market' && server == server'
    ensures Agree("applied_leverage", knobs, knobs') && Agree("risk_preset", knobs, knobs')
  {
    ConfigBytesInjective(ComponentConfigFor(knobs, market, server), ComponentConfigFor(knobs', market', server'));
    DeploymentAgrees(knobs, market, server, knobs', market', server');
    ActedOnKnobs();
    KnobAgrees(0, "applied_leverage", knobs, market, server, knobs', market', server');
    KnobAgrees(26, "risk_preset", knobs, market, server, knobs', market', server');
  }

  lemma ActedOnKnobs()
    ensures "applied_leverage" !in SERVER_KEYS && "risk_preset" !in SERVER_KEYS
  {
  }
}
