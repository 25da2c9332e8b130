/**
 * The state machine once more, one status at a time and by the numbers of the header: in
 * which states a status is taken, where it leads, and what is advertised on the way.  The
 * tables, and the constants they are written with, agree with this index on every pair.
 */
module ByNumber {
  import opened Fsm

  /** The states in which a status is taken. */
  predicate Taken(status: Status, s: State) {
    if status == 100 then s == 1
    else if status == 110 then s == 21 || s == 24
    else if status == 111 then s == 10 || s == 21 || s == 24
    else if status == 112 then 10 <= s <= 12 || 21 <= s <= 26 || s == 28
    else if status == 113 || status == 200 then 21 <= s <= 23
    else if status == 114 then s == 22 || s == 23 || s == 25 || s == 26
    else if status == 115 then s == 11 || s == 12 || s == 22 || s == 25
    else if status == 116 then s == 25 || s == 26
    else if status == 117 then s == 23 || s == 26
    else if status == 120 then s == 1 || s == 13
    else if status == 121 then s == 2 || s == 13
    else if status == 122 || status == 301 then s == 2
    else if status == 124 then s == 1 || s == 13 || s == 14
    else if status == 125 then s == 3 || s == 14
    else if status == 126 then s == 3
    else if status == 130 then s == 13 || s == 17 || s == 27
    else if status == 131 then s == 6 || s == 17
    else if status == 132 then s == 6 || s == 7 || s == 17
    else if status == 134 then s == 14 || s == 17 || s == 18 || s == 27
    else if status == 135 then s == 7 || s == 18
    else if status == 136 then s == 18
    else if status == 140 then 10 <= s <= 12 || s == 21 || s == 24
    else if status == 141 then s == 8 || s == 9 || s == 19 || s == 20 || s == 27
    else if status == 142 || status == 210 then 10 <= s <= 12
    else if status == 145 then s == 22 || s == 23 || s == 25
    else if status == 146 then s == 11 || s == 12
    else if status == 147 then s == 26
    else if status == 150 then s == 1 || 25 <= s <= 28
    else if status == 155 then s == 24 || s == 28
    else if status == 156 then s == 28
    else if status == 160 then s == 1 || s == 15
    else if status == 161 then s == 4 || s == 15
    else if status == 162 then s == 4
    else if status == 164 then s == 1 || s == 15 || s == 16
    else if status == 165 then s == 5 || s == 16
    else if status == 166 then s == 5
    else if status == 170 then s == 15 || s == 19 || s == 27
    else if status == 171 then s == 8 || s == 19 || s == 27
    else if status == 172 then s == 8
    else if status == 173 then s == 19 || s == 20
    else if status == 174 then s == 16 || s == 20
    else if status == 175 then s == 9 || s == 19 || s == 20
    else if status == 177 || status == 178 then s == 9
    else if status == 300 || status == 304 then 1 <= s <= 27
    else if status == 320 || status == 324 then 1 <= s <= 14
    else if status == 410 then 10 <= s <= 12 || 21 <= s <= 23
    else if status == 500 then 1 <= s <= 29
    else false
  }

  /** Where a status that is taken leads; the others leave the state as it is. */
  function Leads(status: Status, s: State): State {
    if status == 113 && s == 21 then 24
    else if status == 113 && s == 22 then 25
    else if status == 113 && s == 23 then 26
    else if status == 114 && s == 26 then 22
    else if status == 116 && s == 25 then 23
    else if status == 120 && s == 1 then 13
    else if status == 122 then 6
    else if status == 124 && (s == 1 || s == 13) then 14
    else if status == 126 then 7
    else if status == 130 && (s == 13 || s == 27) then 17
    else if status == 132 && s == 6 then 10
    else if status == 132 && s == 7 then 11
    else if status == 132 && s == 17 then 21
    else if status == 134 && (s == 14 || s == 17 || s == 27) then 18
    else if status == 136 then 22
    else if status == 142 && s == 10 then 28
    else if status == 142 && (s == 11 || s == 12) then 10
    else if status == 146 && s == 11 then 12
    else if status == 146 && s == 12 then 11
    else if status == 150 && (s == 25 || s == 26) then 21
    else if status == 150 && s == 27 then 1
    else if status == 155 && s == 24 then 28
    else if status == 156 then 1
    else if status == 160 && s == 1 then 15
    else if status == 162 then 8
    else if status == 164 && (s == 1 || s == 15) then 16
    else if status == 166 then 9
    else if status == 170 && s == 15 then 19
    else if status == 172 then 1
    else if status == 173 then 27
    else if status == 174 && s == 16 then 20
    else if status == 175 && s == 19 then 20
    else if status == 177 then 6
    else if status == 178 then 7
    else if status == 300 && s == 1 then 2
    else if status == 300 && s == 2 then 3
    else if status == 300 && s == 4 then 5
    else if status == 304 && (s == 1 || s == 2) then 3
    else if status == 304 && s == 4 then 5
    else if status == 320 && s == 1 then 4
    else if status == 320 && 2 <= s <= 4 then 5
    else if status == 324 && 1 <= s <= 4 then 5
    else if status == 410 then 1
    else if status == 500 && 1 <= s <= 28 then 29
    else s
  }

  /** What is advertised on the move from s to t by this status. */
  function Says(status: Status, s: State, t: State): Status {
    if t == 1 then if status == 156 then 100 else if status == 410 then 410 else 150
    else if t == 2 then 120
    else if t == 3 then 124
    else if t == 4 then 160
    else if t == 5 then 164
    else if t == 6 then 130
    else if t == 7 then 134
    else if t == 8 then 170
    else if t == 9 then 174
    else if t == 10 then 110
    else if t == 11 then 114
    else if t == 12 then 116
    else if t == 13 then 121
    else if t == 14 then 125
    else if t == 15 then 161
    else if t == 16 then 165
    else if t == 17 then 131
    else if t == 18 then if s == 14 then 131 else 135
    else if t == 19 then 171
    else if t == 20 then if s == 19 then 171 else 175
    else if t == 21 then 111
    else if t == 22 then 115
    else if t == 23 then 117
    else if t == 24 then 140
    else if t == 25 then 145
    else if t == 26 then 147
    else if t == 27 then 141
    else 155
  }

  lemma TakenExactly(status: Status, s: State)
    ensures CheckEvent(s, EventOf(status), status) <==> Taken(status, s)
  {
  }

  lemma LeadsExactly(status: Status, s: State)
    requires Taken(status, s)
    ensures NewState(s, EventOf(status), status) == Leads(status, s)
  {
  }

  /** The action of an accepted row: heartbeats, but for data, local files that only queue up, and the end. */
  function Acts(status: Status, s: State): Action {
    if status == 500 then 7
    else if status == 112 then if s <= 23 then 3 else 6
    else if status == 200 then 5
    else if status == 210 then 4
    else if status == 300 || status == 304 then if s <= 5 || s == 7 || s == 9 then 1 else 2
    else if status == 320 || status == 324 then if s <= 5 || s == 9 then 1 else 2
    else 1
  }

  /** The heartbeat of an accepted row that stays in its state: what is advertised there, or a kind of data. */
  function Repeats(status: Status, s: State): Status {
    if status == 112 then if s <= 12 then 200 else 210
    else if s == 1 then 100
    else if s == 20 then 175
    else Says(0, 0, s)
  }

  lemma ActsExactly(status: Status, s: State)
    requires Taken(status, s)
    ensures ActionOf(s, EventOf(status), status) == Acts(status, s)
  {
  }

  lemma SaysExactly(status: Status, s: State)
    requires Taken(status, s) && Leads(status, s) != s && status != 500
    ensures HeartbeatStatus(s, EventOf(status), status) == Says(status, s, Leads(status, s))
  {
  }

  lemma RepeatsExactly(status: Status, s: State)
    requires Taken(status, s) && Leads(status, s) == s && status != 500
    ensures HeartbeatStatus(s, EventOf(status), status) == Repeats(status, s)
  {
  }

  lemma ExitExactly(s: State)
    requires Taken(500, s)
    ensures Leads(500, s) == 29 && HeartbeatStatus(s, EventOf(500), 500) == 500
  {
  }

  /** Only the interrupt leads out, and every other move sends a heartbeat. */
  lemma MoveActs(status: Status, s: State)
    requires Taken(status, s) && Leads(status, s) != s
    ensures Leads(status, s) == 29 <==> status == 500
    ensures Acts(status, s) == if status == 500 then 7 else 1
  {
  }

  /** The kinds of event that the boxoffice tells apart. */
  lemma KindsExactly(status: Status)
    ensures EventOf(status) == ReceivedHeartbeat <==>
              || status == 100 || status == 110 || status == 111 || 114 <= status <= 117 || status == 120
              || status == 121 || status == 124 || status == 125 || status == 130 || status == 131
              || status == 134 || status == 135
              || status == 140 || status == 141 || status == 145 || status == 147 || status == 150 || status == 155
              || status == 160 || status == 161 || status == 164 || status == 165 || status == 170 || status == 171
              || status == 174 || status == 175 || status == 410
    ensures EventOf(status) == NewLocalFile || EventOf(status) == NewLocalFileWithMore <==>
              status == 300 || status == 304
    ensures EventOf(status) == LocalFileMetadataChange || EventOf(status) == LocalFileMetadataChangeWithMore <==>
              status == 320 || status == 324
    ensures EventOf(status) == ReceivedFileData <==> status == 200
  {
  }
}
