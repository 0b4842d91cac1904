// The byte layout amount | recipient length | recipient, as the relayer writes it, as the
// relayer reads it from a deposit, and as the handler contract reads it from a proposal.
module Payload {
  import opened Words
  import opened Bytes

  // The shortest big-endian form of a number, and padding on the left with zeros.
  function MinimalBytes(n: nat): Bytes {
    if n == 0 then [] else MinimalBytes(n / 256) + [n % 256]
  }

  function LeftPad(b: Bytes, width: nat): Bytes
    decreases width - |b|
  {
    if |b| >= width then b else LeftPad([0] + b, width)
  }

  // Proposal data for an amount and a recipient; an amount over 32 bytes is not cut.
  function ProposalData(amount: nat, recipient: Bytes): Bytes {
    LeftPad(MinimalBytes(amount), 32) + LeftPad(MinimalBytes(|recipient|), 32) + recipient
  }

  // What the relayer reads from deposit data of at least 84 bytes.
  function DeclaredLength(data: Bytes): nat
    requires |data| >= 84
  {
    FromBytes(data[32..64])
  }

  function DepositFields(data: Bytes): (nat, Bytes)
    requires |data| >= 84 && 64 + DeclaredLength(data) <= |data|
  {
    (FromBytes(data[..32]), data[64..64 + DeclaredLength(data)])
  }

  // The first 20 bytes of a recipient, zero-filled on the right when there are fewer.
  function RecipientAddress(recipient: Bytes): Address {
    var b := (recipient + seq(20, _ => 0 as byte))[..20];
    AddressFits(b);
    FromBytes(b)
  }

  lemma AddressFits(b: Bytes)
    requires |b| == 20
    ensures FromBytes(b) < TWO_160
  {
    WordWidths();
    FromBytesBound(b);
  }

  // What the handler reads from proposal data, None when the data is too short.
  function ProposalFields(data: Bytes): Option<(nat, Address)> {
    if |data| < 64 then None
    else
      var length := FromBytes(data[32..64]);
      if 64 + length > |data| then None
      else Some((FromBytes(data[..32]), RecipientAddress(data[64..64 + length])))
  }

  lemma WordFits(b: Bytes)
    requires |b| == 32
    ensures FromBytes(b) < TWO_256
  {
    WordWidths();
    FromBytesBound(b);
  }

  lemma {:induction false} PadZero(b: Bytes)
    ensures FromBytes([0] + b) == FromBytes(b)
  {
    if |b| == 0 {
      assert ([0] + b)[..0] == [];
    } else {
      PadZero(b[..|b| - 1]);
      assert ([0] + b)[..|b|] == [0] + b[..|b| - 1];
    }
  }

  lemma {:induction false} PadKeepsNumber(b: Bytes, width: nat)
    ensures FromBytes(LeftPad(b, width)) == FromBytes(b)
    ensures |LeftPad(b, width)| == Max(|b|, width)
    decreases width - |b|
  {
    if |b| < width {
      PadZero(b);
      PadKeepsNumber([0] + b, width);
    }
  }

  lemma {:induction false} MinimalRoundTrip(n: nat, width: nat)
    ensures FromBytes(MinimalBytes(n)) == n
    ensures n < Pow256(width) <==> |MinimalBytes(n)| <= width
    decreases n
  {
    if n > 0 {
      MinimalRoundTrip(n / 256, if width == 0 then 0 else width - 1);
      var b := MinimalBytes(n);
      assert b[..|b| - 1] == MinimalBytes(n / 256);
    }
  }

  lemma PaddedWord(n: nat)
    ensures FromBytes(LeftPad(MinimalBytes(n), 32)) == n
    ensures |LeftPad(MinimalBytes(n), 32)| == 32 <==> n < TWO_256
  {
    hide MinimalBytes, LeftPad, FromBytes, Pow256;
    WordWidths();
    MinimalRoundTrip(n, 32);
    PadKeepsNumber(MinimalBytes(n), 32);
  }

  // Round trip: what the relayer writes, followed by anything, is read back by the relayer
  // and by the handler as the same amount and the same recipient.
  lemma DataRoundTrip(amount: nat, recipient: Bytes, rest: Bytes)
    requires amount < TWO_256 && 20 <= |recipient| < TWO_256
    ensures var data := ProposalData(amount, recipient) + rest;
            && |data| >= 64 + |recipient| && DeclaredLength(data) == |recipient|
            && DepositFields(data) == (amount, recipient)
            && ProposalFields(data) == Some((amount, RecipientAddress(recipient)))
  {
    hide LeftPad, MinimalBytes, FromBytes;
    PaddedWord(amount);
    PaddedWord(|recipient|);
    var a, l := LeftPad(MinimalBytes(amount), 32), LeftPad(MinimalBytes(|recipient|), 32);
    var data := ProposalData(amount, recipient) + rest;
    assert data[..32] == a && data[32..64] == l;
    assert data[64..64 + |recipient|] == recipient;
  }

  // The handler's half of it, for a recipient of any length.
  lemma ProposalRoundTrip(amount: nat, recipient: Bytes)
    requires amount < TWO_256 && |recipient| < TWO_256
    ensures ProposalFields(ProposalData(amount, recipient)) == Some((amount, RecipientAddress(recipient)))
  {
    assert ProposalData(amount, recipient) + [] == ProposalData(amount, recipient);
    WrittenIsRead(amount, recipient, []);
  }

  // The round trip fails exactly for amounts that do not fit a word, which no reader returns.
  lemma AmountSurvives(amount: nat, recipient: Bytes)
    requires 20 <= |recipient| < TWO_256
    ensures amount < TWO_256 <==>
              ProposalFields(ProposalData(amount, recipient)) == Some((amount, RecipientAddress(recipient)))
  {
    var data := ProposalData(amount, recipient);
    if amount < TWO_256 {
      assert data + [] == data;
      DataRoundTrip(amount, recipient, []);
    } else if |data| >= 64 {
      WordFits(data[..32]);
    }
  }

  // Both readers agree on every byte string the relayer accepts.
  lemma ReadersAgree(data: Bytes)
    requires |data| >= 84 && 64 + DeclaredLength(data) <= |data|
    ensures ProposalFields(data) == Some((DepositFields(data).0, RecipientAddress(DepositFields(data).1)))
    ensures DepositFields(data).0 < TWO_256
  {
    WordFits(data[..32]);
  }

  // The handler accepts exactly the data that the relayer can write, followed by anything.
  lemma HandlerReadsWhatIsWritten(data: Bytes, amount: nat, address: Address)
    ensures ProposalFields(data) == Some((amount, address)) <==>
              exists recipient, rest ::
                && data == ProposalData(amount, recipient) + rest && amount < TWO_256 && |recipient| < TWO_256
                && address == RecipientAddress(recipient)
  {
    hide LeftPad, MinimalBytes, FromBytes, RecipientAddress;
    if ProposalFields(data) == Some((amount, address)) {
      var length := FromBytes(data[32..64]);
      var recipient, rest := data[64..64 + length], data[64 + length..];
      WordFits(data[..32]);
      WordFits(data[32..64]);
      WordIsPadded(data[..32]);
      WordIsPadded(data[32..64]);
      assert data == ProposalData(amount, recipient) + rest;
    }
    forall recipient, rest
      | data == ProposalData(amount, recipient) + rest && amount < TWO_256 && |recipient| < TWO_256
      ensures ProposalFields(data) == Some((amount, RecipientAddress(recipient)))
    {
      WrittenIsRead(amount, recipient, rest);
    }
  }

  lemma WrittenIsRead(amount: nat, recipient: Bytes, rest: Bytes)
    requires amount < TWO_256 && |recipient| < TWO_256
    ensures ProposalFields(ProposalData(amount, recipient) + rest) == Some((amount, RecipientAddress(recipient)))
  {
    hide LeftPad, MinimalBytes, FromBytes, RecipientAddress;
    PaddedWord(amount);
    PaddedWord(|recipient|);
    var a, l := LeftPad(MinimalBytes(amount), 32), LeftPad(MinimalBytes(|recipient|), 32);
    var data := ProposalData(amount, recipient) + rest;
    assert data[..32] == a && data[32..64] == l;
    assert data[64..64 + |recipient|] == recipient;
  }

  // A word is what the relayer writes for its number.
  lemma WordIsPadded(word: Bytes)
    requires |word| == 32
    ensures word == LeftPad(MinimalBytes(FromBytes(word)), 32)
  {
    hide LeftPad, MinimalBytes;
    WordFits(word);
    PaddedWord(FromBytes(word));
    SameBytes(word, LeftPad(MinimalBytes(FromBytes(word)), 32));
  }

  lemma {:induction false} SameBytes(a: Bytes, b: Bytes)
    requires |a| == |b| && FromBytes(a) == FromBytes(b)
    ensures a == b
  {
    if a != [] {
      var n := |a| - 1;
      SameBytes(a[..n], b[..n]);
      assert a == a[..n] + [a[n]] && b == b[..n] + [b[n]];
    }
  }

  // A recipient of fewer than 20 bytes is filled up with zeros on the right.
  lemma ShortRecipientsAreFilled(recipient: Bytes)
    requires |recipient| <= 20
    ensures RecipientAddress(recipient) == FromBytes(recipient) * Pow256(20 - |recipient|)
  {
    hide FromBytes, Pow256;
    var zeros := seq(20 - |recipient|, _ => 0 as byte);
    assert (recipient + seq(20, _ => 0 as byte))[..20] == recipient + zeros;
    ZerosShift(recipient, zeros);
  }

  lemma {:induction false} ZerosShift(b: Bytes, zeros: Bytes)
    requires forall i | 0 <= i < |zeros| :: zeros[i] == 0
    ensures FromBytes(b + zeros) == FromBytes(b) * Pow256(|zeros|)
    decreases |zeros|
  {
    if zeros == [] {
      assert b + zeros == b;
    } else {
      var n := |zeros| - 1;
      ZerosShift(b, zeros[..n]);
      assert (b + zeros)[..|b| + n] == b + zeros[..n] && (b + zeros)[|b| + n] == 0;
      assert 256 * (FromBytes(b) * Pow256(n)) == FromBytes(b) * Pow256(n + 1);
    }
  }

  // Only the first 20 bytes of a recipient matter to the handler.
  lemma LongRecipientsAreCut(recipient: Bytes)
    requires |recipient| >= 20
    ensures RecipientAddress(recipient) == FromBytes(recipient[..20])
  {
    assert (recipient + seq(20, _ => 0 as byte))[..20] == recipient[..20];
  }
}
