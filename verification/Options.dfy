/** DHCP options (RFC 2132 section 2): the writer that skips what does not fit, the parser,
    and the fact that they undo each other. */
module Options {
  import opened Bytes
  import opened Buffers

  const PAD: byte := 0
  const END: byte := 255

  datatype Opt = Opt(code: byte, value: seq<byte>)

  type OptionMap = map<byte, seq<byte>>

  // -------------------------------------------------------------------------- writer

  predicate Fits(size: nat, pos: nat, value: seq<byte>) {
    |value| <= 255 && pos + 2 + |value| < size
  }

  function EncodeOption(o: Opt): seq<byte>
    requires |o.value| <= 255
  {
    [o.code, |o.value|] + o.value
  }

  /** The area and the position after one option has been appended, or skipped. */
  function Append(area: seq<byte>, pos: nat, o: Opt): (r: (seq<byte>, nat))
    ensures |r.0| == |area|
  {
    if Fits(|area|, pos, o.value) then (Splice(area, pos, EncodeOption(o)), pos + 2 + |o.value|)
    else (area, pos)
  }

  /** An option is written as its code, its length and its value, if it has at most 255 bytes and
      leaves room for the end marker; otherwise nothing happens. No other byte changes. */
  lemma AppendsExactly(area: seq<byte>, pos: nat, o: Opt)
    ensures
      var r, n := Append(area, pos, o), |o.value|;
      if n < 0x100 && pos + 2 + n < |area| then
        && r.1 == pos + 2 + n && r.0[pos] == o.code && r.0[pos + 1] == n && r.0[pos + 2..pos + 2 + n] == o.value
        && r.0[..pos] == area[..pos] && r.0[pos + 2 + n..] == area[pos + 2 + n..]
      else r == (area, pos)
  {
    if Fits(|area|, pos, o.value) {
      var r := Append(area, pos, o).0;
      assert r[pos..pos + 2 + |o.value|] == EncodeOption(o);
      assert r[pos] == EncodeOption(o)[0] && r[pos + 1] == EncodeOption(o)[1];
      assert r[pos + 2..pos + 2 + |o.value|] == EncodeOption(o)[2..];
    }
  }

  /** appendOption on the part of a buffer that starts at base. */
  method AppendOption(buffer: array<byte>, base: nat, pos: nat, code: byte, value: seq<byte>) returns (next: nat)
    requires base <= buffer.Length
    modifies buffer
    ensures
      var r := Append(old(buffer[base..]), pos, Opt(code, value));
      buffer[..base] == old(buffer[..base]) && buffer[base..] == r.0 && next == r.1
  {
    if |value| > 255 || pos + 2 + |value| >= buffer.Length - base {
      return pos;
    }
    ghost var before := buffer[..];
    buffer[base + pos], buffer[base + pos + 1] := code, |value|;
    assert buffer[..] == Splice(before, base + pos, [code, |value|]);
    Copy(buffer, base + pos + 2, value);
    SpliceTwice(before, base + pos, [code, |value|], value);
    SpliceBehind(before, base, pos, [code, |value|] + value);
    assert buffer[..base] == buffer[..][..base] && buffer[base..] == buffer[..][base..];
    assert before[..base] == old(buffer[..base]) && before[base..] == old(buffer[base..]);
    return pos + 2 + |value|;
  }

  function AppendAll(area: seq<byte>, pos: nat, opts: seq<Opt>): (r: (seq<byte>, nat))
    ensures |r.0| == |area|
    decreases |opts|
  {
    if opts == [] then (area, pos)
    else
      var first := Append(area, pos, opts[0]);
      AppendAll(first.0, first.1, opts[1..])
  }

  /** The options that are not skipped. */
  function Accepted(size: nat, pos: nat, opts: seq<Opt>): (kept: seq<Opt>)
    ensures forall i :: 0 <= i < |kept| ==> |kept[i].value| <= 255 && kept[i] in opts
    decreases |opts|
  {
    if opts == [] then []
    else if Fits(size, pos, opts[0].value) then
      [opts[0]] + Accepted(size, pos + 2 + |opts[0].value|, opts[1..])
    else Accepted(size, pos, opts[1..])
  }

  ghost predicate Encodable(opts: seq<Opt>) {
    forall i :: 0 <= i < |opts| ==> |opts[i].value| <= 255
  }

  function Encode(opts: seq<Opt>): seq<byte>
    requires Encodable(opts)
  {
    if opts == [] then [] else EncodeOption(opts[0]) + Encode(opts[1..])
  }

  /** The writer leaves the encoding of the accepted options behind pos, with room for the end
      marker after it, and touches nothing else. */
  lemma {:induction false} AppendAllIs(area: seq<byte>, pos: nat, opts: seq<Opt>)
    requires pos < |area|
    ensures
      var kept := Encode(Accepted(|area|, pos, opts));
      var r := AppendAll(area, pos, opts);
      && r.1 == pos + |kept| < |area|
      && r.0 == Splice(area, pos, kept)
    decreases |opts|
  {
    hide Splice, EncodeOption, Encode, Append, AppendAll, Accepted, Fits;
    AppendSteps(area, pos, opts);
    if opts == [] {
      EncodeNone();
      SpliceNothing(area, pos);
    } else if Fits(|area|, pos, opts[0].value) {
      var o := opts[0];
      var next := pos + 2 + |o.value|;
      var rest := Accepted(|area|, next, opts[1..]);
      EncodeCons(o, rest);
      AppendAllIs(Splice(area, pos, EncodeOption(o)), next, opts[1..]);
      SpliceTwice(area, pos, EncodeOption(o), Encode(rest));
    } else {
      AppendAllIs(area, pos, opts[1..]);
    }
  }

  /** One step of the writer, and of what it keeps. */
  lemma AppendSteps(area: seq<byte>, pos: nat, opts: seq<Opt>)
    requires pos < |area|
    ensures opts == [] ==> AppendAll(area, pos, opts) == (area, pos) && Accepted(|area|, pos, opts) == []
    ensures opts != [] && Fits(|area|, pos, opts[0].value) ==>
              var o, next := opts[0], pos + 2 + |opts[0].value|;
              && |o.value| <= 255 && next < |area|
              && AppendAll(area, pos, opts) == AppendAll(Splice(area, pos, EncodeOption(o)), next, opts[1..])
              && Accepted(|area|, pos, opts) == [o] + Accepted(|area|, next, opts[1..])
    ensures opts != [] && !Fits(|area|, pos, opts[0].value) ==>
              && AppendAll(area, pos, opts) == AppendAll(area, pos, opts[1..])
              && Accepted(|area|, pos, opts) == Accepted(|area|, pos, opts[1..])
  {
    hide Splice;
  }

  lemma EncodeNone()
    ensures Encode([]) == []
  {
  }

  lemma EncodeCons(o: Opt, rest: seq<Opt>)
    requires |o.value| <= 255 && Encodable(rest)
    ensures Encodable([o] + rest) && Encode([o] + rest) == EncodeOption(o) + Encode(rest)
    ensures |EncodeOption(o)| == 2 + |o.value|
  {
    assert ([o] + rest)[1..] == rest;
  }

  // -------------------------------------------------------------------------- parser

  function Parse(data: seq<byte>, options: OptionMap): Result<OptionMap>
    decreases |data|
  {
    if data == [] then Ok(options)
    else if data[0] == PAD then Parse(data[1..], options)
    else if data[0] == END then Ok(options)
    else if |data| < 2 then Error
    else if 2 + (data[1] as int) > |data| then Error
    else Parse(data[2 + data[1]..], options[data[0] := data[2..2 + data[1]]])
  }

  /** The loop of parseOptions: every pass moves pos forward, and every index is in bounds. */
  method ParseOptions(data: seq<byte>) returns (result: Result<OptionMap>)
    ensures result == Parse(data, map[])
  {
    var options: OptionMap := map[];
    var pos := 0;
    assert data[0..] == data;
    while pos < |data|
      invariant 0 <= pos <= |data|
      invariant Parse(data, map[]) == Parse(data[pos..], options)
      decreases |data| - pos
    {
      ghost var rest := data[pos..];
      var code := data[pos];
      pos := pos + 1;
      assert rest[1..] == data[pos..];
      if code == PAD {
        continue;
      } else if code == END {
        return Ok(options);
      }
      if pos >= |data| {
        return Error;
      }
      var length := data[pos] as int;
      pos := pos + 1;
      if pos + length > |data| {
        return Error;
      }
      assert rest[2..2 + length] == data[pos..pos + length];
      assert rest[2 + length..] == data[pos + length..];
      options := options[code := data[pos..pos + length]];
      pos := pos + length;
    }
    return Ok(options);
  }

  /** What a sequence of options means: the last value of each code. */
  function LastValues(options: OptionMap, opts: seq<Opt>): OptionMap
    decreases |opts|
  {
    if opts == [] then options else LastValues(options[opts[0].code := opts[0].value], opts[1..])
  }

  /** LastValues is what its name says. */
  lemma {:induction false} LastValuesMeaning(options: OptionMap, opts: seq<Opt>, code: byte)
    ensures
      var m := LastValues(options, opts);
      && (code in m <==> code in options || exists i :: 0 <= i < |opts| && opts[i].code == code)
      && (forall i :: 0 <= i < |opts| && opts[i].code == code
                      && (forall j :: i < j < |opts| ==> opts[j].code != code) ==>
            m[code] == opts[i].value)
      && ((forall i :: 0 <= i < |opts| ==> opts[i].code != code) && code in options ==> m[code] == options[code])
    decreases |opts|
  {
    if opts != [] {
      var rest := opts[1..];
      LastValuesMeaning(options[opts[0].code := opts[0].value], rest, code);
      var m := LastValues(options, opts);
      assert forall i :: 0 <= i < |rest| ==> rest[i] == opts[i + 1];
      forall i | 0 <= i < |opts| && opts[i].code == code && (forall j :: i < j < |opts| ==> opts[j].code != code)
        ensures code in m && m[code] == opts[i].value
      {
        if i > 0 {
          assert rest[i - 1].code == code;
          assert forall j :: i - 1 < j < |rest| ==> rest[j].code != code;
        }
      }
      if exists i :: 0 <= i < |opts| && opts[i].code == code {
        var i :| 0 <= i < |opts| && opts[i].code == code;
        if i > 0 { assert rest[i - 1].code == code; }
      }
    }
  }

  ghost predicate Plain(opts: seq<Opt>) {
    forall i :: 0 <= i < |opts| ==> opts[i].code != PAD && opts[i].code != END
  }

  /** Parsing written options gives their last values, whatever follows the end marker. */
  lemma {:induction false} ParseEncoded(opts: seq<Opt>, rest: seq<byte>, options: OptionMap)
    requires Encodable(opts) && Plain(opts)
    ensures Parse(Encode(opts) + [END] + rest, options) == Ok(LastValues(options, opts))
    decreases |opts|
  {
    if opts == [] {
      assert ([] + [END] + rest)[0] == END;
    } else {
      var o := opts[0];
      var data := Encode(opts) + [END] + rest;
      var tail := Encode(opts[1..]) + [END] + rest;
      assert data == EncodeOption(o) + tail;
      assert data[0] == o.code && data[1] == |o.value| && data[2..2 + |o.value|] == o.value;
      assert data[2 + |o.value|..] == tail;
      ParseEncoded(opts[1..], rest, options[o.code := o.value]);
    }
  }

  lemma EndBehind(area: seq<byte>, pos: nat, kept: seq<byte>)
    requires pos + |kept| < |area|
    ensures Splice(area, pos, kept)[pos + |kept| := END][pos..] == kept + [END] + area[pos + |kept| + 1..]
  {
    var s := Splice(area, pos, kept);
    assert s[pos..pos + |kept|] == kept;
    assert s[pos + |kept| + 1..] == area[pos + |kept| + 1..];
  }

  /** The writer and the parser undo each other: after any options have been appended from
      position pos, and the end marker stored behind them, parsing from pos succeeds and
      yields the last accepted value of every code, and nothing else. */
  lemma WriteThenParse(area: seq<byte>, pos: nat, opts: seq<Opt>)
    requires pos < |area| && Plain(opts)
    ensures
      var r := AppendAll(area, pos, opts);
      && pos <= r.1 < |area|
      && Parse(r.0[r.1 := END][pos..], map[]) == Ok(LastValues(map[], Accepted(|area|, pos, opts)))
  {
    hide Splice, Encode, Parse, AppendAll, LastValues, Accepted;
    var kept := Accepted(|area|, pos, opts);
    AppendAllIs(area, pos, opts);
    KeptPlain(|area|, pos, opts);
    EndBehind(area, pos, Encode(kept));
    ParseEncoded(kept, area[pos + |Encode(kept)| + 1..], map[]);
  }

  lemma KeptPlain(size: nat, pos: nat, opts: seq<Opt>)
    requires Plain(opts)
    ensures Plain(Accepted(size, pos, opts)) && Encodable(Accepted(size, pos, opts))
  {
    hide Accepted;
    var kept := Accepted(size, pos, opts);
    forall i | 0 <= i < |kept| ensures kept[i].code != PAD && kept[i].code != END {
      assert kept[i] in opts;
    }
  }

  /** Options that all fit are all accepted. */
  lemma {:induction false} AllAccepted(size: nat, pos: nat, opts: seq<Opt>)
    requires Encodable(opts) && pos + |Encode(opts)| < size
    ensures Accepted(size, pos, opts) == opts
    decreases |opts|
  {
    hide EncodeOption, Encode;
    if opts != [] {
      EncodeCons(opts[0], opts[1..]);
      assert opts == [opts[0]] + opts[1..];
      AllAccepted(size, pos + 2 + |opts[0].value|, opts[1..]);
    }
  }
}
