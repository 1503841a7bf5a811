/**
 * The length-prefixed transfer of `main` (task.cpp:412-483). The parent
 * (producer) builds a command, writes its length as decimal text to the
 * FIFO and then its bytes to the pipe; the child (consumer) reads the
 * length text, parses it with `stoi`, reads that many bytes from the pipe,
 * rebuilds the command and runs it.
 *
 * The two processes are modelled as two sequential steps over the same
 * channel objects: everything the producer writes is in the queues before
 * the consumer starts.
 */
module Transfer {
  import opened Basics
  import opened Decimal
  import opened Templates
  import opened Commands
  import opened Channels

  /** The child's length buffer, `char data[1024]` (task.cpp:440). */
  const TOKEN_CAPACITY: nat := 1024

  /** Why the consumer rebuilds no command. */
  datatype ReceiveError =
    | BadLength(cause: StoiError)  // `stoi` threw on the length text
    | ShortPayload                 // the pipe held fewer bytes than the length announced

  /** The length text a consumer reads from a FIFO that holds `queued`. */
  function TakenToken(queued: seq<char>): (token: string)
    ensures token <= queued && |token| <= TOKEN_CAPACITY
    ensures |queued| <= TOKEN_CAPACITY ==> token == queued
  {
    queued[..Min(TOKEN_CAPACITY, |queued|)]
  }

  /**
   * Length fidelity: the consumer parses the length text of a payload of
   * `n` bytes back to `n` whenever `n` fits an `int`, including `n == 0`;
   * a longer payload makes `stoi` throw `out_of_range`.
   */
  lemma LengthTokenParses(n: nat)
    ensures Stoi(TakenToken(ToString(n))) == if n <= INT_MAX then Ok(n) else Err(OutOfRange)
  {
    if |ToString(n)| <= TOKEN_CAPACITY {
      ShortLengthTokenParses(n);
    } else {
      LongLengthTokenOutOfRange(n);
    }
  }

  /** A length text that fits the buffer is read whole and parsed back. */
  lemma ShortLengthTokenParses(n: nat)
    requires |ToString(n)| <= TOKEN_CAPACITY
    ensures Stoi(TakenToken(ToString(n))) == if n <= INT_MAX then Ok(n) else Err(OutOfRange)
  {
    var s := ToString(n);
    assert TakenToken(s) == s + [];
    StoiOfToString(n, []);
  }

  /** A length text longer than the buffer belongs to a count past `INT_MAX`, and its cut-off prefix still reads as `out_of_range`. */
  lemma LongLengthTokenOutOfRange(n: nat)
    requires |ToString(n)| > TOKEN_CAPACITY
    ensures n > INT_MAX && Stoi(TakenToken(ToString(n))) == Err(OutOfRange)
  {
    LongNatToStringExceedsInt(n);
    TruncatedNatToStringOutOfRange(n, TOKEN_CAPACITY);
  }

  /**
   * The producer (task.cpp:471-478): the command as its `c_str()` shows it,
   * its byte count as decimal text into the FIFO, then its bytes into the
   * pipe.
   */
  method Produce(commander: Commander, fifo: Fifo, pipe: Pipe)
    modifies fifo, pipe
    ensures fifo.queued == old(fifo.queued) + ToString(|CStr(commander.command)|)
    ensures pipe.queued == old(pipe.queued) + CStr(commander.command)
  {
    var command := commander.GetCommand();
    var data := CStr(command);
    var size := |data|;
    var _ := fifo.WriteDataFromStr(ToString(size));
    var _ := pipe.WriteDataFromStr(data, size);
  }

  /**
   * The consumer (task.cpp:440-452): the length text from the FIFO first,
   * then exactly as many pipe bytes as it announces, rebuilt into a new
   * commander that runs them.
   */
  method Consume(fifo: Fifo, pipe: Pipe) returns (r: Result<Commander, ReceiveError>)
    modifies fifo, pipe
    ensures fifo.queued == old(fifo.queued)[|TakenToken(old(fifo.queued))|..]
    ensures Stoi(TakenToken(old(fifo.queued))).Err? ==>
              r == Err(BadLength(Stoi(TakenToken(old(fifo.queued))).error)) &&
              pipe.queued == old(pipe.queued)
    ensures Stoi(TakenToken(old(fifo.queued))).Ok? ==>
              var n := ToSizeT(Stoi(TakenToken(old(fifo.queued))).value);
              (n <= |old(pipe.queued)| ==>
                 r.Ok? && fresh(r.value) &&
                 r.value.command == old(pipe.queued)[..n] &&
                 r.value.executed == [CStr(r.value.command)] &&
                 pipe.queued == old(pipe.queued)[n..]) &&
              (n > |old(pipe.queued)| ==> r == Err(ShortPayload) && pipe.queued == [])
  {
    var data := new char[TOKEN_CAPACITY];
    var got := fifo.ReadData(data);
    var token := data[..got];
    var parsed := Stoi(token);
    if parsed.Err? {
      return Err(BadLength(parsed.error));
    }
    var n := ToSizeT(parsed.value);
    var buff := new char[n];
    var received := pipe.ReadData(buff, n);
    if received < n {
      return Err(ShortPayload);
    }
    var commander := new Commander();
    commander.SetCommandFromBuffer(buff, n);
    commander.ExecuteCommand();
    return Ok(commander);
  }

  /**
   * One transfer of any command over fresh channels: the producer's half for
   * a commander holding `command`, then the consumer's half. The consumer
   * rebuilds exactly the text the producer sent (the command up to any
   * NUL), the empty command included, unless that text is too long for
   * `stoi` to read its length. `ran` is what the consumer hands to the
   * shell: the rebuilt command, or nothing when there is none.
   */
  method Transmit(command: string) returns (received: Result<string, ReceiveError>, ghost ran: seq<string>)
    ensures received == if |CStr(command)| <= INT_MAX then Ok(CStr(command)) else Err(BadLength(OutOfRange))
    ensures '\0' !in command && |command| <= INT_MAX ==> received == Ok(command)
    ensures ran == if received.Ok? then [received.value] else []
  {
    var fifo := new Fifo();
    var pipe := new Pipe();
    var producer := new Commander.FromCommand(command);
    Produce(producer, fifo, pipe);
    var payload := CStr(command);
    assert fifo.queued == ToString(|payload|);
    assert pipe.queued == payload;
    LengthTokenParses(|payload|);
    var r := Consume(fifo, pipe);
    if r.Ok? {
      var consumer := r.value;
      var rebuilt := consumer.GetCommand();
      assert payload[..|payload|] == payload;
      CStrWithoutNul(rebuilt);
      received := Ok(rebuilt);
      ran := consumer.executed;
    } else {
      received := Err(r.error);
      ran := [];
    }
    if '\0' !in command {
      CStrWithoutNul(command);
    }
  }

  /** What one run of the program does with a menu choice and the words typed. */
  datatype RunOutcome =
    | Exited                                                      // choice 11
    | Delivered(sent: string, received: Result<string, ReceiveError>)

  /**
   * The whole program: the menu choice sets the producer's command, which
   * is then transferred to the consumer on fresh channels.
   */
  method Run(choice: int, first: string, second: string) returns (outcome: RunOutcome)
    ensures outcome.Exited? <==> choice == 11
    ensures outcome.Delivered? ==> outcome.sent == CommandAfter(choice, first, second, DEFAULT_COMMAND)
    ensures outcome.Delivered? ==>
              outcome.received ==
                if |CStr(outcome.sent)| <= INT_MAX then Ok(CStr(outcome.sent))
                else Err(BadLength(OutOfRange))
    ensures outcome.Delivered? && '\0' !in first && '\0' !in second && |outcome.sent| <= INT_MAX ==>
              outcome.received == Ok(outcome.sent)
  {
    var producer := new Commander();
    var exit := producer.SetCommand(choice, first, second);
    if exit {
      return Exited;
    }
    var sent := producer.GetCommand();
    var received;
    ghost var ran;
    received, ran := Transmit(sent);
    outcome := Delivered(sent, received);
    if '\0' !in first && '\0' !in second {
      CommandAfterWithoutNul(choice, first, second);
    }
  }
}
