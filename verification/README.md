# Signing a Nervos transaction on a Ledger device: a model and its proofs

The device signs a transaction that it never holds. The host sends an annotated transaction, in which every
input carries the transaction that made the output it spends, as a Molecule message cut into APDUs of at most
230 bytes. Resumable readers, generated from the Molecule schema, walk through it and fire callbacks. One set
of callbacks absorbs, into a hash, the bytes of the transaction that the network knows; another adds up amounts,
gathers destinations, counts signers and decides what kind of operation the user is asked to confirm. Amounts
and addresses are then rendered as text.

The proofs say, for every message and every way of cutting it: what the readers report, which bytes are hashed,
exactly which cells are accepted and what is shown for them, that the digest and the display are about the same
transaction, and that a session prompts for a message exactly if it should, and otherwise answers with the error
that is due. Beside that they cover the codecs that the display and the signature pass through: Bech32 with its
checksum as a division of polynomials, bit regrouping, decimal amounts and DER.

## How the files belong together

- Readers. `Schema` and `Encoding` hold the Molecule types and their serialization (RFC 0008). `Automaton` is
  the reader as a one-byte-at-a-time machine, without chunks. `Reader` is the resumable reader itself, as
  methods over a chunk cursor and a log of callbacks, proved to agree with the machine. `Views` says when two
  logs say the same; `Lifting`, `Runs`, `RoundTrip` and `Chunking` lead to chunk independence and the round trip.
  `Transaction` and `Shapes` instantiate the schemas of the signed messages.
- Hashes. `Hashing` holds the hashing callbacks as functions on a value, `Hasher` the class that runs them.
  `Rewrite`, `RawDigest`, `WitnessDigest` and `SignedDigest` prove what is absorbed; `MultisigWitness` what is
  absorbed of the first witness when a multisig input is signed, and `MultisigDigest` what is then signed.
- Accounts. `Ledger` holds the accounting callbacks as functions on a value, `Bookkeeper` the class that runs
  them. `LedgerCells`, `LedgerRuns` and `LedgerTotal` compute the accounts of a whole transaction, and
  `Spending`, `Inputs`, `Conservation`, `Capacities`, `Grouping`, `Payments`, `Sources`, `Accounting`, `Operations`
  and `DaoLimit` say what they mean. `Totals` adds capacities up by where they come from and go to, `Acceptance`
  says which inputs, outputs and data raise no flag, and `Display` which transactions are shown, and how.
- Sessions. `Signing` puts both sets of callbacks together. `MessageLog` says what the log of a whole message looks
  like, `Refusals` and `ReservedByte` when a message is refused besides. `Session` runs the signing command over any
  sequence of APDUs, `Served` says how a whole message is answered, and `Sample` shows that the theorems are about
  some messages.
- Codecs. `Bech32`, `Galois`, `Bech32Text`, `Bech32Coder`, `Regroup`, `Address`, `Decimal`, `Keys`; `KnownAnswers` and
  `MultisigAnswers` hold strings that are known to be right.

## Reading the statements

blake2b is an unknown function of the bytes absorbed since the hash state was cleared; the theorems on digests
hold for every function with 32-byte results. Key derivation is a constant: the lock arguments of the signing
and of the change path. A log of callbacks is recorded by a call of a reader and then dispatched, in order, to
the callbacks; no callback changes what the reader does but `size`, whose verdict can refuse only a derivation
path. `Accounts` is the state of the accounting callbacks at the end of a transaction; its fields `long` and
`thrown` only observe, the first that a lock argument overran its buffer, the second that a consistency check
failed. `Countable` asks that inputs point to outputs their source has and that lock arguments fit the device's 28
bytes, `Ordinary` also that only multisig outputs have more than 20 bytes. `Signable` asks for the announced
number of inputs, at least one, and a first witness that is well formed or cut short. `Miscounted` says that there are
inputs, but not as many as announced, and `Readable` that the first witness is not rejected by its reader.

`Acceptable` speaks of cells only: every cell has a lock and a type that the device knows and data it allows, at most
one source is ours, at most five destinations; everything that asks for an operation asks for the same one, a DAO cell
spent for withdrawal or the second step of it, two destinations for several outputs, DAO data for a deposit; and that
operation's own demand is met. `ShownFor` is the fee, the amounts, the destinations and the other things shown, as sums
over the cells. `Due` is the answer that an APDU deserves after the pieces read since the last clear, given the state
that some log with the same views as the reader's leads to, and a history is `Fair` if every APDU got the answer due.

## Model

| member | source | states |
|---|---|---|
| Reader.Parse | src/molecule_reader_streaming.h:204-301 | one call of the reader of any schema on a chunk agrees with the byte automaton on the bytes left in it: same verdict, same number of bytes, a state that resumes where the automaton rests and, unless it rejects, the same callbacks on every channel; it terminates even if a header announces 2^32-1 items |
| Chunking.ParseAll | src/annotated.h:419-491 | calling the reader once per chunk, until it returns a verdict, agrees with feeding the automaton |
| Chunking.FeedIsGo | src/blockchain.h:574-1130 | feeding chunks to any reader at rest is one call on their concatenation |
| Chunking.ChunkIndependence | src/annotated.h:193-491 | any two ways of cutting a byte stream, empty chunks included, give the same verdict after the same number of bytes, the same resting state and, unless it is rejected, the same callbacks on every channel |
| Chunking.FeedTrip | src/annotated.h:193-491 | the serialization of a value, cut anyhow, completes the reader exactly at its last byte and is reported field by field in order; no proper prefix completes it |
| Chunking.ItemTakesBytes | src/blockchain.h:653-672 | a vector item is never complete without a byte, so a vector loop consumes or returns whatever count its header announces |
| RoundTrip.Trips | src/blockchain.h:574-1130 | streaming the serialization of any value of any regular schema, followed by anything, completes exactly at its end and reports the value |
| RoundTrip.NeverEarly | src/blockchain.h:574-1130 | after every proper prefix of a serialization the reader asks for more |
| Shapes.MessagesRegular | src/annotated.h:299-491 | the schemas of the annotated transaction and of the witness arguments meet the conditions of the theorems on readers |
| Words.UnpackStands | src/molecule_reader_streaming.h:104-104 | a number of the message is the one that its four bytes stand for, least significant first, and is written back as those |
| Hashing.RunView | src/apdu_sign.c:293-331 | unless a multisig input is signed, what is hashed depends only on the log as seen on the hashing channel, so not on the cutting |
| Rewrite.InputRun | src/apdu_sign.c:301-322 | an annotated input contributes since, the hash of its source's serialization and the index, and leaves the source's hash state clear |
| RawDigest.RawRun | src/apdu_sign.c:520-541 | over an annotated raw transaction the callbacks absorb exactly the bytes of the plain one, all offsets shifted modulo 2^32, and the transaction hash is the hash of those |
| RawDigest.PlainEncode | src/apdu_sign.c:525-541 | those bytes are the Molecule serialization of the transaction whose inputs are since, hash of the source, index |
| WitnessDigest.NewWitnessIs | src/apdu_sign.c:806-824 | the length, header and zero signature written for the first witness are those of the arguments with a blank lock, whatever lock they had |
| WitnessDigest.SelfWitness | src/apdu_sign.c:932-948 | the fixed bytes hashed for a first witness that was cut short are the length and serialization of arguments that hold only a blank lock |
| WitnessDigest.ReadArgs | src/apdu_sign.c:884-930 | reading a well-formed first witness absorbs the length and serialization of its arguments with a blank lock, the other fields intact |
| WitnessDigest.WitnessesRun | src/apdu_sign.c:894-952 | the final digest is that of the transaction hash, the blanked first witness, and each later witness behind its 64-bit length |
| SignedDigest.SignedWhole | src/apdu_sign.c:959-975 | however a signable message is cut, unless a multisig input is signed, it is read whole, the transaction hash is that of the plain transaction, and the digest to be signed is that of the transaction hash, the blanked first witness and the later witnesses |
| MultisigWitness.SignaturesZeroed | src/apdu_sign.c:854-882 | what is hashed of a multisig lock is the script with all signatures zeroed exactly if all bytes behind the piece that the script ends strictly inside of are zero already |
| MultisigWitness.OnePieceZeroed | src/apdu_sign.c:854-882 | a multisig lock that arrives in one piece is hashed with all its signatures zeroed |
| MultisigWitness.ScriptKept | src/apdu_sign.c:836-852 | a lock of a zero, two thresholds, the number of keys, that many 20-byte hashes and signatures, in one piece, is hashed with zeros for the signatures alone |
| MultisigWitness.CutBehindScript | src/apdu_sign.c:867-875 | a cut right behind the script leaves every signature in the hash |
| MultisigWitness.MultisigHashed | src/apdu_sign.c:792-882 | when a multisig input is signed, the first witness, cut anyhow, is hashed as the length and serialization of its arguments with the lock as its pieces leave it, which has all signatures zeroed under exactly that condition |
| Hasher.Hasher.ProcessFirst | src/apdu_sign.c:918-930 | a piece of the first witness runs the nested reader and updates the hash states as the function on values says |
| Hasher.Hasher.HashLock | src/apdu_sign.c:854-882 | the loop over a piece of the lock zeroes exactly the bytes behind the script |
| Hasher.Hasher.On | src/apdu_sign.c:718-760 | one callback updates the hash states as the function on values says |
| Hasher.Digests | src/apdu_sign.c:959-975 | reading a message chunk by chunk and running its callbacks yields, for every signable message and no multisig input, its digest |
| Ledger.RunView | src/apdu_sign.c:333-479 | the accounts depend only on the log as seen on the accounting channel, as long as no lock argument overruns its buffer |
| Ledger.ArgCuts | src/apdu_sign.c:378-398 | how a lock argument is cut does not matter exactly if it fits what is left of its 28-byte buffer, or nothing is left |
| LedgerTotal.AccountsWhole | src/apdu_sign.c:484-518 | however an annotated transaction arrives, its accounts are those computed from its cells |
| Spending.OutputIs | src/apdu_sign.c:333-436 | what reading an output leaves behind: capacity, lock and type kinds, whether the lock argument is that of the change address, and exactly when its lock or type flags the transaction |
| Spending.InputIs | src/apdu_sign.c:333-436 | the same for the spent output of a source transaction, with the source counted when its lock argument ends |
| Inputs.InputIsSpend | src/apdu_sign.c:307-337 | of a source transaction only the output with the input's index, and that output's data, reach the accounts |
| Capacities.Unpack64Stands | src/apdu_sign.c:333-337 | a capacity is the number that its eight bytes stand for, least significant first, and its digits are those bytes |
| Capacities.FeeOfCapacities | src/apdu_sign.c:707-711 | if the spent cells and the outputs carry these numbers, in eight bytes each, the fee of an unflagged transaction is the difference of their sums modulo 2^64, negated for a withdrawal, and exact if the sums fit |
| Acceptance.InputsAccepted | src/apdu_sign.c:333-479 | the inputs raise no flag and ask for this operation exactly if every cell spent is known, all DAO cells ask for it, and at most one source is ours |
| Acceptance.OutputsAccepted | src/apdu_sign.c:552-599 | so do the outputs exactly if every one is known and the destinations are at most five and go with the operation |
| Acceptance.DataAccepted | src/apdu_sign.c:637-660 | so do the data exactly if every item taken for that of a DAO cell has eight bytes and asks for it, and no other item has bytes that are not allowed |
| Totals.SpendsAll | src/apdu_sign.c:452-479 | what is spent is what the plain cells and the DAO cells hold |
| Totals.SendsAll | src/apdu_sign.c:552-599 | what the outputs hold goes away, comes back or goes into the DAO |
| Display.WhatIsShown | src/apdu_sign.c:662-714 | a transaction with ordinary lock arguments is not flagged exactly if its cells are acceptable for some operation, and then that operation is shown with its fee, amounts, destinations, number of sources, position of ours, DAO owner and note of data, all of them sums and facts of the cells |
| Display.SelfIsAll | src/apdu_sign.c:601-634 | what a transfer to ourselves shows is the sum of all outputs |
| Sources.LockMatches | src/apdu_sign.c:370-398 | a 20-byte lock argument, cut anyhow, is found unequal exactly if it differs from the expected one |
| Sources.InputsLocated | src/apdu_sign.c:400-415 | over any inputs that raise no flag, the sources counted are the changes of the lock argument, and the number kept for ours is that of the only one of them that is ours |
| Accounting.TagSettles | src/apdu_sign.c:452-479 | over any callbacks but the last, the operation leaves undetermined at most once, or the transaction is flagged, and a flag stays |
| Accounting.ValueConserved | src/apdu_sign.c:662-713 | for every transaction with inputs in range, no consistency check fails and, unless it is flagged, the fee shown is the sum of all inputs minus the sum of all outputs modulo 2^64, negated for a DAO withdrawal |
| Accounting.FeeExact | src/apdu_sign.c:707-711 | if the sums do not overflow the fee, or the return of a withdrawal, is the exact difference |
| Accounting.ShownWhole | src/apdu_sign.c:662-760 | cut anyhow, a message with inputs in range is read whole and shown as the accounts of its cells |
| Grouping.PushCompress | src/apdu_sign.c:564-595 | adding a payment to the compression of the earlier ones, as the device does, gives the run-length compression of all |
| Grouping.CompressTotal | src/apdu_sign.c:592-594 | compression keeps the total |
| Grouping.CompressTight | src/apdu_sign.c:571-572 | no two neighbouring entries have the same key hash and multisig bit |
| Operations.DestinationsShown | src/apdu_sign.c:552-598 | when the outputs have been read without a flag, the destinations are the run-length compression by key hash and multisig bit of the payments to other addresses in order, at most five, and total the plain output amount |
| Operations.DepositAccepted | src/apdu_sign.c:643-653 | an accepted DAO deposit spends no DAO cell, all its DAO outputs go to the change address, and those the mask has room for carry 8 zero bytes |
| Operations.WithdrawAccepted | src/apdu_sign.c:452-464 | an accepted DAO withdrawal spends a DAO cell, every DAO cell it spends carries 8 bytes of data that are not all zero, the mask knows of no DAO output, and DAO and plain outputs total 0 |
| Operations.SourcesCounted | src/apdu_sign.c:400-415 | for 20-byte lock arguments, an unflagged transaction has as many sources as the lock argument of its inputs changes, starting from zeros, and at most one of them is ours |
| DaoLimit.ItemSeen | src/apdu_sign.c:637-641 | a data item is taken for that of a DAO cell exactly if the mask has its bit, and that is right exactly up to item 31, or if the output is in the DAO exactly if it is number 32 to 63 and output 31 is in the DAO |
| DaoLimit.DepositMissed | src/apdu_sign.c:552-558 | the bound is tight: at every index from 32 on an accepted deposit can have a DAO output without data |
| Bookkeeper.CompareArg | src/apdu_sign.c:389-397 | the comparison loop finds a difference exactly if one was found before or some byte differs |
| Bookkeeper.Bookkeeper.TakeArg | src/apdu_sign.c:378-398 | a piece of a lock argument is copied and compared as the function on values says |
| Bookkeeper.Bookkeeper.CloseLock | src/apdu_sign.c:400-415 | the end of a lock argument counts a new source and notes ours once |
| Bookkeeper.Bookkeeper.CloseInputData | src/apdu_sign.c:452-479 | the data of an input adds its capacity to the DAO or plain amounts and settles the operation |
| Bookkeeper.Bookkeeper.CloseOutput | src/apdu_sign.c:552-599 | an output goes to the DAO amount, to a destination or to change, in the fixed buffer of five |
| Bookkeeper.Bookkeeper.CloseOutputs | src/apdu_sign.c:601-634 | a transfer to ourselves turns change into the only destination and clears all flags |
| Bookkeeper.Bookkeeper.CloseOutputData | src/apdu_sign.c:643-660 | the data of an output settles the operation of a DAO output and flags data that is not allowed |
| Bookkeeper.Bookkeeper.FinalizeRaw | src/apdu_sign.c:662-714 | the switch on the operation decides what is shown, or flags the transaction |
| Bookkeeper.Bookkeeper.On | src/apdu_sign.c:718-760 | one callback updates the accounts as the function on values says |
| Bookkeeper.Keep | src/apdu_sign.c:959-975 | reading a message chunk by chunk and running its callbacks yields, for every message with inputs in range, the accounts of its cells |
| Signing.Apart | src/apdu_sign.c:662-714 | the accounts run on their own and, unless the transaction is flagged or a multisig input is signed, so do the hashes |
| Signing.SignsWhatIsShown | src/apdu_sign.c:959-975 | for a whole message, cut anyhow, what is shown is the account of its cells and, unless it is flagged or a multisig input is signed, the digest signed is that of the same transaction |
| Refusals.RefusedExactly | src/apdu_sign.c:520-523 | however a message arrives, the hard rejection is raised exactly if it has inputs, and not as many as it announces |
| ReservedByte.ReservedExactly | src/apdu_sign.c:854-857 | however a message arrives whose first witness can be read, its script is refused exactly if a multisig input is signed and the first byte of its lock is not zero |
| ReservedByte.LockSeenIs | src/apdu_sign.c:884-930 | of well-formed witness arguments the whole lock is seen |
| MultisigDigest.MultisigSigned | src/apdu_sign.c:792-952 | however a signable message arrives that is not flagged, has a multisig input and whose first witness has a lock that starts with a script, the transaction hash is that of the plain transaction, and the digest that of it, the first witness with its lock as some cutting of the lock leaves it, all signatures zeroed under exactly the condition above, and the later witnesses |
| Session.Session.Advance | src/apdu_sign.c:996-1000 | one chunk moves the reader, and a reader that is done answers COMPLETE again |
| Session.Session.Fail | src/apdu.c:158-159 | an error clears the state and is recorded |
| Session.ParameterIs | src/apdu_sign.c:971-975 | the parameter of an APDU is the mark for the last piece, the wish to be refused rather than to sign blindly, and the kind |
| Session.Session.HandleApdu | src/apdu_sign.c:977-1029 | one APDU is answered as is due after the pieces read since the last clear: a wrong length, a parse error if the message was rejected or the reader does not say what the mark says, the security error or the rejection for what is flagged, the prompt for an operation that has one, or just on; it keeps the session valid, in particular every prompt so far justified and every answer so far the due one |
| Session.Serve | src/apdu_sign.c:977-1029 | over every sequence of APDUs, every answer is the due one, and every prompt is for an operation there is a prompt for, after chunks since the last clear that read INCOMPLETE unless marked as last and COMPLETE if marked, with no flag and no hard rejection raised |
| Session.PromptMeans | src/apdu_sign.c:1000-1029 | if those chunks carry a signable message with inputs in range, the operation and amounts shown are those of its cells and, unless a multisig input is signed, the digest to be signed is its own |
| Served.MessageServed | src/apdu_sign.c:977-1029 | whatever happened before, a whole message that is cut and marked as it should be is accepted chunk by chunk and answered in the end with the prompt for the operation of its cells or, if they are flagged, with the error asked for; only a multisig script can be refused besides, and it is exactly for its reserved byte |
| Served.PromptedExactly | src/apdu_sign.c:977-1029 | with ordinary lock arguments it ends in a prompt exactly if its cells are acceptable for some operation and no multisig cell is spent with a script whose reserved byte is not zero; the operation and amounts are those of the cells |
| Served.MultisigPrompt | src/apdu_sign.c:1000-1029 | if the chunks behind a prompt carry such a message, the operation and amounts shown are those of its cells and, when a multisig input is signed, the digest to be signed is that one |
| Sample.SampleSignable | src/apdu_sign.c:959-975 | for any keys there is a message that meets the hypotheses of these theorems |
| Sample.SampleShown | src/apdu_sign.c:662-714 | that message is acceptable and shown, for any keys and settings |
| Bech32.StepLinear | src/segwit_addr.c:28-32 | the checksum step is linear over GF(2) |
| Bech32.StepInjective | src/segwit_addr.c:28-32 | the step is injective on states of 30 bits |
| Bech32.BurstDetected | src/segwit_addr.c:28-32 | two symbol sequences that differ only within six consecutive positions never have the same checksum, at any length |
| Bech32.ChecksumIsOne | src/segwit_addr.c:78-86 | the six symbols appended absorb the state and bring the checksum to 1 |
| Galois.GeneratorsAreProducts | src/segwit_addr.c:28-32 | the constants selected by a symbol are its six products over GF(32) with the coefficients of BIP-173's generator |
| Galois.FoldDivides | src/segwit_addr.c:28-32 | the checksum state is the remainder, over GF(32), of the polynomial of all symbols on division by that generator |
| Galois.FoldScaled | src/segwit_addr.c:28-32 | the checksum is linear over GF(32) |
| Bech32Text.RoundTrip | src/segwit_addr.c:43-152 | for everything the encoder encodes, the decoder returns it exactly if the human-readable part is not empty and printable and the string has at most 90 characters |
| Bech32Text.AcceptedExactly | src/segwit_addr.c:91-152 | the decoder returns a human-readable part and symbols exactly for their encoding, all in lower or all in upper case, with at most 90 characters |
| Bech32Text.SameValues | src/segwit_addr.c:36-41 | two strings of charset characters carry the same symbols exactly if they differ at most in case |
| Bech32Text.BurstRejected | src/segwit_addr.c:133-151 | no change of an accepted string's data part to other charset characters, within six consecutive ones, is accepted, unless it only changes case |
| Bech32Coder.Encode | src/segwit_addr.c:43-89 | the loops write the encoding and a final zero exactly if the string may be encoded, with the length check at 108 |
| Bech32Coder.DecodeString | src/segwit_addr.c:91-152 | the loops return what the decoding function says, without a separator too, and reject exactly where it has no value |
| Regroup.SymbolCount | src/segwit_addr.c:154-185 | n bytes become ceil(8n/5) symbols |
| Regroup.SymbolsNumber | src/segwit_addr.c:154-185 | the symbols are exactly the base-32 digits of the number whose base-256 digits are the bytes, filled up with zero bits |
| Regroup.BytesBack | src/segwit_addr.c:154-185 | regrouping into bytes undoes padded regrouping into symbols |
| Regroup.BytesIff | src/segwit_addr.c:154-185 | regrouping symbols into bytes succeeds, given room, exactly on the symbols that come from bytes, and returns those |
| Regroup.ConvertBits | src/segwit_addr.c:154-185 | the loop with its wrapping 32-bit accumulator computes the regrouping, and fails exactly when there is no room or, unpadded, a rest that is too long or not zero |
| Address.AddressInjective | src/to_string.c:215-246 | on one network equal addresses show the same kind of lock, the same key hash and, for multisig, the same period |
| Address.AlwaysRenders | src/apdu_pubkey.c:55-78 | rendering succeeds exactly if the buffer has room for the address, and the longest address has exactly the 108 characters the encoder allows |
| Address.DecodesIffShort | src/segwit_addr.c:97-97 | the decoder gives back the payload of exactly the short addresses |
| KnownAnswers.UpperVector | src/segwit_addr.c:91-152 | the decoder accepts BIP-173's A12UEL5L |
| KnownAnswers.AllVector | src/segwit_addr.c:91-152 | and its string of all 32 symbols behind abcdef |
| KnownAnswers.ShortAddresses | README.md:311-317 | the addresses of a documented lock argument on both networks are the documented ones |
| MultisigAnswers.BriefAddress | tests/multi-output.js:1363-1363 | the address of a multisig lock without a period is the one the tests show |
| MultisigAnswers.LongAddress | tests/multi-output.js:1360-1360 | so is that of one with a period |
| Address.RenderPkh | src/apdu_pubkey.c:55-78 | the payload is regrouped and encoded into the buffer, or rendering throws exactly if it cannot be encoded |
| Address.SighashAddress | src/to_string.c:215-222 | the address of a key hash, or an exception exactly if the buffer is too short |
| Address.MultisigAddress | src/to_string.c:224-246 | the short or full address of a multisig lock, or an exception exactly if the buffer is too short |
| Decimal.RenderExact | src/to_string.c:148-176 | what is shown, read as a decimal, is the amount, without a zero to spare at either end |
| Decimal.RenderInjective | src/to_string.c:148-176 | different amounts are shown differently |
| Decimal.RenderLength | src/to_string.c:92-98 | an amount takes at most 22 characters with the final zero, and more than the 21 the check asks for exactly from a hundred billion CKB on with all eight decimals |
| Decimal.ConvertNumber | src/to_string.c:63-74 | the digits are filled in from the end, with or without leading zeros |
| Decimal.NumberToString | src/to_string.c:115-125 | the digits without leading zeros, and a final zero |
| Decimal.FracCkbToString | src/to_string.c:148-176 | the buffer holds the rendering and a final zero |
| Keys.OneEncoding | src/keys.c:106-110 | every natural number has exactly one DER integer encoding (section 8.3 of X.690) |
| Keys.Sign | src/keys.c:83-126 | from any DER signature of r and s in 1 to 2^256-1, short and sign-padded integers included, the output is r and s as 32 big-endian bytes each, then a byte whose lowest bit says that the point is odd, whose next says that its x is large, and no other; a short buffer is an error and stays untouched |
| Keys.CompactInjective | src/keys.c:112-125 | the output determines both numbers and the recovery bits |
| Keys.Path.Read | src/keys.c:29-48 | a derivation path is read exactly if the bytes begin with one of one to five components, and the errors tell short input from a wrong count |
| Keys.PathsApart | src/keys.c:36-46 | no path's bytes begin with those of another |

## Left out

- Cryptography and key derivation: blake2b is an unknown function, ECDSA results are given as DER, derived lock arguments are constants of a session.
- The user interface, non-volatile settings but one, boot, USB and Bluetooth, and what happens after a prompt is accepted or rejected, which clears the state.
- The commands for public keys, accounts, versions, messages and message hashes; hexadecimal output, path rendering, `segwit_addr_encode` and `segwit_addr_decode`, which this application does not call.
- MultisigWitness.MultisigHashed: does not say what lies beyond a piece; an empty first piece of the lock, or one that ends before the key count, makes the device read the byte behind it, which the model takes to be zero.
- MultisigDigest.MultisigSigned: does not say which cutting of the lock the chunks lead to, nor what is signed when the lock of the first witness is missing or has no script.
- Hashing.RunView: does not cover multisig witnesses, whose pieces matter.
- Served.MessageServed: asks for lock arguments that fit and, to be exact about a multisig script, a first witness that its reader does not reject.
- Served.PromptedExactly: asks for ordinary lock arguments, as Display.WhatIsShown does.
- Session.Serve: does not notice the reserved byte of a multisig script in a first witness whose reader rejects in the same call, so the device may refuse more.
- WitnessDigest.WitnessesRun: does not cover a first witness that is rejected midway; the model's reader stays given up, while the device calls it again on the next piece.
- SignedDigest.SignedWhole: does not cover empty input or witness vectors, of which the reader reports no length and no index.
- Chunking.ChunkIndependence: does not compare the callbacks of a rejected stream, which are discarded, nor the pieces a `Bytes` node would pass to a `chunk` callback, which none registers.
- Session.HandleApdu: the reader states left by an error and by a clear are the same value, so a continuation after an error starts a new message, as on the device. Bytes of a chunk behind the end of a message are ignored, as on the device.
- Ledger.ArgCuts: beyond 28 bytes the device keeps nothing of a piece, so its accounts depend on the cutting; theorems on accounts ask for arguments that fit.
- Operations.DestinationsShown: is about the outputs before a transfer to ourselves replaces them. That replacement leaves the capacity of its single entry 0.
- Operations.DepositAccepted: does not bind DAO outputs from number 32 on that the 64-bit mask has no room for, as DaoLimit.DepositMissed shows. A shift by 32 or more is undefined in C; the model leaves the mask as the device's processor does.
- Accounting.ValueConserved: asks for inputs in range; an input whose index its source does not have adds nothing.
- Aliasing between the instructions of the device, which share one union, and between callbacks of the signing command and the derivation path being read.
- Bech32Coder.Encode: takes a buffer longer than its announced size, because the final zero is not checked against it.
- Decimal.FracCkbToString: takes a buffer of 22 characters, one more than the caller checks for.
