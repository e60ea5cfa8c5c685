/** The key-value server: the receive loop behind the channel, and the get and putAppend services. */
module KeyValueServer {
  import opened Commands
  import opened Channels
  import Spec = RaftNode
  import opened SRaftServer

  datatype GetResponse = GetResponse(wrongLeader: bool, err: string, value: string)
  datatype PutAppendResponse = PutAppendResponse(wrongLeader: bool, err: string)

  class Skvserver {
    const channel: MyChannel
    const node: SRaft
    var kvDB: Database

    constructor (raftAddr: string, file: PersistFile)
      ensures fresh(channel) && fresh(node) && node.channel == channel && node.file == file
      ensures channel.que == [] && kvDB == INITIAL_DB
    {
      var ch := new MyChannel();
      channel := ch;
      node := new SRaft(raftAddr, ch, file);
      kvDB := INITIAL_DB;
    }

    /** That many turns of the receive loop, which waits on the channel at each. */
    method Receive(rounds: nat)
      requires rounds <= |channel.que|
      modifies this`kvDB, channel
      ensures channel.que == old(channel.que)[rounds..]
      ensures kvDB == ExecuteAll(old(kvDB), old(channel.que)[..rounds])
    {
      ghost var all := channel.que;
      var done := 0;
      while done < rounds
        invariant 0 <= done <= rounds <= |all|
        invariant channel.que == all[done..]
        invariant kvDB == ExecuteAll(old(kvDB), all[..done])
      {
        var cmd := channel.PopData();
        ExecuteOneMore(old(kvDB), all[..done], cmd);
        assert all[..done + 1] == all[..done] + [cmd];
        var first := Extract(cmd);
        if first.Some? {
          var second := Extract(first.value.1);
          if second.Some? {
            var third := Extract(second.value.1);
            if third.Some? {
              var op, key, value := first.value.0, second.value.0, third.value.0;
              if op == "put" {
                kvDB := kvDB[key := value];
              } else if op == "append" {
                kvDB := kvDB[key := (if key in kvDB then kvDB[key] else "") + value];
              }
            }
          }
        }
        done := done + 1;
      }
    }

    method Get(key: string) returns (response: GetResponse)
      ensures response.wrongLeader <==> node.state != Spec.Leader
      ensures response.err ==
              if response.wrongLeader then "wrong leader" else if key !in kvDB then "wrong key" else "none"
      ensures response.err == "none" ==> response.value == kvDB[key]
      ensures response.err != "none" ==> response.value == "Error"
    {
      if node.state != Spec.Leader {
        return GetResponse(true, "wrong leader", "Error");
      }
      if key !in kvDB {
        response := GetResponse(false, "wrong key", "Error");
      } else {
        response := GetResponse(false, "none", kvDB[key]);
      }
    }

    /** A leader logs the command as text and answers before it is committed. */
    method PutAppend(request: Command) returns (response: PutAppendResponse, calls: map<Name, Msg>)
      requires Spec.CanMint(node.View())
      modifies node, node.file, node.channel
      ensures response.wrongLeader <==> old(node.state) != Spec.Leader
      ensures response.err == if response.wrongLeader then "wrong leader" else "none"
      ensures if response.wrongLeader then node.View() == old(node.View()) && node.Queue() == old(node.Queue()) &&
              calls == map[]
              else
                var e := Spec.DoLog(old(node.View()), Encode(request));
                node.View() == e.node && calls == e.calls &&
                  node.Queue() == old(node.Queue()) + node.Delivered(e.pushed)
    {
      calls := map[];
      if node.state != Spec.Leader {
        return PutAppendResponse(true, "wrong leader"), calls;
      }
      var cmd := request.op + " " + request.key + " " + request.value;
      var result;
      result, calls := node.DoLog(cmd);
      response := PutAppendResponse(false, "none");
    }
  }
}
