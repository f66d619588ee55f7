/**
 The permutative and cyclic data-block encodings (sections 5.1 and 5.2 of [MS-PST]) over the 768-byte
 key table, transcribed as its three 256-byte slices. A slice is a function of the byte that indexes
 it: the outer match selects a row of sixteen by the high nibble, the inner match the entry.
 */
module Encode {

  function KeyDataR(b: bv8): bv8 {
    var j := b & 15;
    match b >> 4
    case  0 => (match j
      case  0 =>  65 case  1 =>  54 case  2 =>  19 case  3 =>  98 case  4 => 168 case  5 =>  33 case  6 => 110 case  7 => 187
      case  8 => 244 case  9 =>  22 case 10 => 204 case 11 =>   4 case 12 => 127 case 13 => 100 case 14 => 232 case  _ =>  93)
    case  1 => (match j
      case  0 =>  30 case  1 => 242 case  2 => 203 case  3 =>  42 case  4 => 116 case  5 => 197 case  6 =>  94 case  7 =>  53
      case  8 => 210 case  9 => 149 case 10 =>  71 case 11 => 158 case 12 => 150 case 13 =>  45 case 14 => 154 case  _ => 136)
    case  2 => (match j
      case  0 =>  76 case  1 => 125 case  2 => 132 case  3 =>  63 case  4 => 219 case  5 => 172 case  6 =>  49 case  7 => 182
      case  8 =>  72 case  9 =>  95 case 10 => 246 case 11 => 196 case 12 => 216 case 13 =>  57 case 14 => 139 case  _ => 231)
    case  3 => (match j
      case  0 =>  35 case  1 =>  59 case  2 =>  56 case  3 => 142 case  4 => 200 case  5 => 193 case  6 => 223 case  7 =>  37
      case  8 => 177 case  9 =>  32 case 10 => 165 case 11 =>  70 case 12 =>  96 case 13 =>  78 case 14 => 156 case  _ => 251)
    case  4 => (match j
      case  0 => 170 case  1 => 211 case  2 =>  86 case  3 =>  81 case  4 =>  69 case  5 => 124 case  6 =>  85 case  7 =>   0
      case  8 =>   7 case  9 => 201 case 10 =>  43 case 11 => 157 case 12 => 133 case 13 => 155 case 14 =>   9 case  _ => 160)
    case  5 => (match j
      case  0 => 143 case  1 => 173 case  2 => 179 case  3 =>  15 case  4 =>  99 case  5 => 171 case  6 => 137 case  7 =>  75
      case  8 => 215 case  9 => 167 case 10 =>  21 case 11 =>  90 case 12 => 113 case 13 => 102 case 14 =>  66 case  _ => 191)
    case  6 => (match j
      case  0 =>  38 case  1 =>  74 case  2 => 107 case  3 => 152 case  4 => 250 case  5 => 234 case  6 => 119 case  7 =>  83
      case  8 => 178 case  9 => 112 case 10 =>   5 case 11 =>  44 case 12 => 253 case 13 =>  89 case 14 =>  58 case  _ => 134)
    case  7 => (match j
      case  0 => 126 case  1 => 206 case  2 =>   6 case  3 => 235 case  4 => 130 case  5 => 120 case  6 =>  87 case  7 => 199
      case  8 => 141 case  9 =>  67 case 10 => 175 case 11 => 180 case 12 =>  28 case 13 => 212 case 14 =>  91 case  _ => 205)
    case  8 => (match j
      case  0 => 226 case  1 => 233 case  2 =>  39 case  3 =>  79 case  4 => 195 case  5 =>   8 case  6 => 114 case  7 => 128
      case  8 => 207 case  9 => 176 case 10 => 239 case 11 => 245 case 12 =>  40 case 13 => 109 case 14 => 190 case  _ =>  48)
    case  9 => (match j
      case  0 =>  77 case  1 =>  52 case  2 => 146 case  3 => 213 case  4 =>  14 case  5 =>  60 case  6 =>  34 case  7 =>  50
      case  8 => 229 case  9 => 228 case 10 => 249 case 11 => 159 case 12 => 194 case 13 => 209 case 14 =>  10 case  _ => 129)
    case 10 => (match j
      case  0 =>  18 case  1 => 225 case  2 => 238 case  3 => 145 case  4 => 131 case  5 => 118 case  6 => 227 case  7 => 151
      case  8 => 230 case  9 =>  97 case 10 => 138 case 11 =>  23 case 12 => 121 case 13 => 164 case 14 => 183 case  _ => 220)
    case 11 => (match j
      case  0 => 144 case  1 => 122 case  2 =>  92 case  3 => 140 case  4 =>   2 case  5 => 166 case  6 => 202 case  7 => 105
      case  8 => 222 case  9 =>  80 case 10 =>  26 case 11 =>  17 case 12 => 147 case 13 => 185 case 14 =>  82 case  _ => 135)
    case 12 => (match j
      case  0 =>  88 case  1 => 252 case  2 => 237 case  3 =>  29 case  4 =>  55 case  5 =>  73 case  6 =>  27 case  7 => 106
      case  8 => 224 case  9 =>  41 case 10 =>  51 case 11 => 153 case 12 => 189 case 13 => 108 case 14 => 217 case  _ => 148)
    case 13 => (match j
      case  0 => 243 case  1 =>  64 case  2 =>  84 case  3 => 111 case  4 => 240 case  5 => 198 case  6 => 115 case  7 => 184
      case  8 => 214 case  9 =>  62 case 10 => 101 case 11 =>  24 case 12 =>  68 case 13 =>  31 case 14 => 221 case  _ => 103)
    case 14 => (match j
      case  0 =>  16 case  1 => 241 case  2 =>  12 case  3 =>  25 case  4 => 236 case  5 => 174 case  6 =>   3 case  7 => 161
      case  8 =>  20 case  9 => 123 case 10 => 169 case 11 =>  11 case 12 => 255 case 13 => 248 case 14 => 163 case  _ => 192)
    case _  => (match j
      case  0 => 162 case  1 =>   1 case  2 => 247 case  3 =>  46 case  4 => 188 case  5 =>  36 case  6 => 104 case  7 => 117
      case  8 =>  13 case  9 => 254 case 10 => 186 case 11 =>  47 case 12 => 181 case 13 => 208 case 14 => 218 case  _ =>  61)
  }

  function KeyDataS(b: bv8): bv8 {
    var j := b & 15;
    match b >> 4
    case  0 => (match j
      case  0 =>  20 case  1 =>  83 case  2 =>  15 case  3 =>  86 case  4 => 179 case  5 => 200 case  6 => 122 case  7 => 156
      case  8 => 235 case  9 => 101 case 10 =>  72 case 11 =>  23 case 12 =>  22 case 13 =>  21 case 14 => 159 case  _ =>   2)
    case  1 => (match j
      case  0 => 204 case  1 =>  84 case  2 => 124 case  3 => 131 case  4 =>   0 case  5 =>  13 case  6 =>  12 case  7 =>  11
      case  8 => 162 case  9 =>  98 case 10 => 168 case 11 => 118 case 12 => 219 case 13 => 217 case 14 => 237 case  _ => 199)
    case  2 => (match j
      case  0 => 197 case  1 => 164 case  2 => 220 case  3 => 172 case  4 => 133 case  5 => 116 case  6 => 214 case  7 => 208
      case  8 => 167 case  9 => 155 case 10 => 174 case 11 => 154 case 12 => 150 case 13 => 113 case 14 => 102 case  _ => 195)
    case  3 => (match j
      case  0 =>  99 case  1 => 153 case  2 => 184 case  3 => 221 case  4 => 115 case  5 => 146 case  6 => 142 case  7 => 132
      case  8 => 125 case  9 => 165 case 10 =>  94 case 11 => 209 case 12 =>  93 case 13 => 147 case 14 => 177 case  _ =>  87)
    case  4 => (match j
      case  0 =>  81 case  1 =>  80 case  2 => 128 case  3 => 137 case  4 =>  82 case  5 => 148 case  6 =>  79 case  7 =>  78
      case  8 =>  10 case  9 => 107 case 10 => 188 case 11 => 141 case 12 => 127 case 13 => 110 case 14 =>  71 case  _ =>  70)
    case  5 => (match j
      case  0 =>  65 case  1 =>  64 case  2 =>  68 case  3 =>   1 case  4 =>  17 case  5 => 203 case  6 =>   3 case  7 =>  63
      case  8 => 247 case  9 => 244 case 10 => 225 case 11 => 169 case 12 => 143 case 13 =>  60 case 14 =>  58 case  _ => 249)
    case  6 => (match j
      case  0 => 251 case  1 => 240 case  2 =>  25 case  3 =>  48 case  4 => 130 case  5 =>   9 case  6 =>  46 case  7 => 201
      case  8 => 157 case  9 => 160 case 10 => 134 case 11 =>  73 case 12 => 238 case 13 => 111 case 14 =>  77 case  _ => 109)
    case  7 => (match j
      case  0 => 196 case  1 =>  45 case  2 => 129 case  3 =>  52 case  4 =>  37 case  5 => 135 case  6 =>  27 case  7 => 136
      case  8 => 170 case  9 => 252 case 10 =>   6 case 11 => 161 case 12 =>  18 case 13 =>  56 case 14 => 253 case  _ =>  76)
    case  8 => (match j
      case  0 =>  66 case  1 => 114 case  2 => 100 case  3 =>  19 case  4 =>  55 case  5 =>  36 case  6 => 106 case  7 => 117
      case  8 => 119 case  9 =>  67 case 10 => 255 case 11 => 230 case 12 => 180 case 13 =>  75 case 14 =>  54 case  _ =>  92)
    case  9 => (match j
      case  0 => 228 case  1 => 216 case  2 =>  53 case  3 =>  61 case  4 =>  69 case  5 => 185 case  6 =>  44 case  7 => 236
      case  8 => 183 case  9 =>  49 case 10 =>  43 case 11 =>  41 case 12 =>   7 case 13 => 104 case 14 => 163 case  _ =>  14)
    case 10 => (match j
      case  0 => 105 case  1 => 123 case  2 =>  24 case  3 => 158 case  4 =>  33 case  5 =>  57 case  6 => 190 case  7 =>  40
      case  8 =>  26 case  9 =>  91 case 10 => 120 case 11 => 245 case 12 =>  35 case 13 => 202 case 14 =>  42 case  _ => 176)
    case 11 => (match j
      case  0 => 175 case  1 =>  62 case  2 => 254 case  3 =>   4 case  4 => 140 case  5 => 231 case  6 => 229 case  7 => 152
      case  8 =>  50 case  9 => 149 case 10 => 211 case 11 => 246 case 12 =>  74 case 13 => 232 case 14 => 166 case  _ => 234)
    case 12 => (match j
      case  0 => 233 case  1 => 243 case  2 => 213 case  3 =>  47 case  4 => 112 case  5 =>  32 case  6 => 242 case  7 =>  31
      case  8 =>   5 case  9 => 103 case 10 => 173 case 11 =>  85 case 12 =>  16 case 13 => 206 case 14 => 205 case  _ => 227)
    case 13 => (match j
      case  0 =>  39 case  1 =>  59 case  2 => 218 case  3 => 186 case  4 => 215 case  5 => 194 case  6 =>  38 case  7 => 212
      case  8 => 145 case  9 =>  29 case 10 => 210 case 11 =>  28 case 12 =>  34 case 13 =>  51 case 14 => 248 case  _ => 250)
    case 14 => (match j
      case  0 => 241 case  1 =>  90 case  2 => 239 case  3 => 207 case  4 => 144 case  5 => 182 case  6 => 139 case  7 => 181
      case  8 => 189 case  9 => 192 case 10 => 191 case 11 =>   8 case 12 => 151 case 13 =>  30 case 14 => 108 case  _ => 226)
    case _  => (match j
      case  0 =>  97 case  1 => 224 case  2 => 198 case  3 => 193 case  4 =>  89 case  5 => 171 case  6 => 187 case  7 =>  88
      case  8 => 222 case  9 =>  95 case 10 => 223 case 11 =>  96 case 12 => 121 case 13 => 126 case 14 => 178 case  _ => 138)
  }

  function KeyDataI(b: bv8): bv8 {
    var j := b & 15;
    match b >> 4
    case  0 => (match j
      case  0 =>  71 case  1 => 241 case  2 => 180 case  3 => 230 case  4 =>  11 case  5 => 106 case  6 => 114 case  7 =>  72
      case  8 => 133 case  9 =>  78 case 10 => 158 case 11 => 235 case 12 => 226 case 13 => 248 case 14 => 148 case  _ =>  83)
    case  1 => (match j
      case  0 => 224 case  1 => 187 case  2 => 160 case  3 =>   2 case  4 => 232 case  5 =>  90 case  6 =>   9 case  7 => 171
      case  8 => 219 case  9 => 227 case 10 => 186 case 11 => 198 case 12 => 124 case 13 => 195 case 14 =>  16 case  _ => 221)
    case  2 => (match j
      case  0 =>  57 case  1 =>   5 case  2 => 150 case  3 =>  48 case  4 => 245 case  5 =>  55 case  6 =>  96 case  7 => 130
      case  8 => 140 case  9 => 201 case 10 =>  19 case 11 =>  74 case 12 => 107 case 13 =>  29 case 14 => 243 case  _ => 251)
    case  3 => (match j
      case  0 => 143 case  1 =>  38 case  2 => 151 case  3 => 202 case  4 => 145 case  5 =>  23 case  6 =>   1 case  7 => 196
      case  8 =>  50 case  9 =>  45 case 10 => 110 case 11 =>  49 case 12 => 149 case 13 => 255 case 14 => 217 case  _ =>  35)
    case  4 => (match j
      case  0 => 209 case  1 =>   0 case  2 =>  94 case  3 => 121 case  4 => 220 case  5 =>  68 case  6 =>  59 case  7 =>  26
      case  8 =>  40 case  9 => 197 case 10 =>  97 case 11 =>  87 case 12 =>  32 case 13 => 144 case 14 =>  61 case  _ => 131)
    case  5 => (match j
      case  0 => 185 case  1 =>  67 case  2 => 190 case  3 => 103 case  4 => 210 case  5 =>  70 case  6 =>  66 case  7 => 118
      case  8 => 192 case  9 => 109 case 10 =>  91 case 11 => 126 case 12 => 178 case 13 =>  15 case 14 =>  22 case  _ =>  41)
    case  6 => (match j
      case  0 =>  60 case  1 => 169 case  2 =>   3 case  3 =>  84 case  4 =>  13 case  5 => 218 case  6 =>  93 case  7 => 223
      case  8 => 246 case  9 => 183 case 10 => 199 case 11 =>  98 case 12 => 205 case 13 => 141 case 14 =>   6 case  _ => 211)
    case  7 => (match j
      case  0 => 105 case  1 =>  92 case  2 => 134 case  3 => 214 case  4 =>  20 case  5 => 247 case  6 => 165 case  7 => 102
      case  8 => 117 case  9 => 172 case 10 => 177 case 11 => 233 case 12 =>  69 case 13 =>  33 case 14 => 112 case  _ =>  12)
    case  8 => (match j
      case  0 => 135 case  1 => 159 case  2 => 116 case  3 => 164 case  4 =>  34 case  5 =>  76 case  6 => 111 case  7 => 191
      case  8 =>  31 case  9 =>  86 case 10 => 170 case 11 =>  46 case 12 => 179 case 13 => 120 case 14 =>  51 case  _ =>  80)
    case  9 => (match j
      case  0 => 176 case  1 => 163 case  2 => 146 case  3 => 188 case  4 => 207 case  5 =>  25 case  6 =>  28 case  7 => 167
      case  8 =>  99 case  9 => 203 case 10 =>  30 case 11 =>  77 case 12 =>  62 case 13 =>  75 case 14 =>  27 case  _ => 155)
    case 10 => (match j
      case  0 =>  79 case  1 => 231 case  2 => 240 case  3 => 238 case  4 => 173 case  5 =>  58 case  6 => 181 case  7 =>  89
      case  8 =>   4 case  9 => 234 case 10 =>  64 case 11 =>  85 case 12 =>  37 case 13 =>  81 case 14 => 229 case  _ => 122)
    case 11 => (match j
      case  0 => 137 case  1 =>  56 case  2 => 104 case  3 =>  82 case  4 => 123 case  5 => 252 case  6 =>  39 case  7 => 174
      case  8 => 215 case  9 => 189 case 10 => 250 case 11 =>   7 case 12 => 244 case 13 => 204 case 14 => 142 case  _ =>  95)
    case 12 => (match j
      case  0 => 239 case  1 =>  53 case  2 => 156 case  3 => 132 case  4 =>  43 case  5 =>  21 case  6 => 213 case  7 => 119
      case  8 =>  52 case  9 =>  73 case 10 => 182 case 11 =>  18 case 12 =>  10 case 13 => 127 case 14 => 113 case  _ => 136)
    case 13 => (match j
      case  0 => 253 case  1 => 157 case  2 =>  24 case  3 =>  65 case  4 => 125 case  5 => 147 case  6 => 216 case  7 =>  88
      case  8 =>  44 case  9 => 206 case 10 => 254 case 11 =>  36 case 12 => 175 case 13 => 222 case 14 => 184 case  _ =>  54)
    case 14 => (match j
      case  0 => 200 case  1 => 161 case  2 => 128 case  3 => 166 case  4 => 153 case  5 => 152 case  6 => 168 case  7 =>  47
      case  8 =>  14 case  9 => 129 case 10 => 101 case 11 => 115 case 12 => 228 case 13 => 194 case 14 => 162 case  _ => 138)
    case _  => (match j
      case  0 => 212 case  1 => 225 case  2 =>  17 case  3 => 208 case  4 =>   8 case  5 => 139 case  6 =>  42 case  7 => 242
      case  8 => 237 case  9 => 154 case 10 => 100 case 11 =>  63 case 12 => 193 case 13 => 108 case 14 => 249 case  _ => 236)
  }

  lemma InverseOfR(b: bv8)
    ensures KeyDataI(KeyDataR(b)) == b
  {}

  lemma InverseOfI(b: bv8)
    ensures KeyDataR(KeyDataI(b)) == b
  {}

  lemma InvolutionS(b: bv8)
    ensures KeyDataS(KeyDataS(b)) == b
  {}

  // Permutative encoding.

  function Mapped(s: seq<bv8>, table: bv8 -> bv8): (r: seq<bv8>)
    ensures |r| == |s|
    ensures forall i :: 0 <= i < |s| ==> r[i] == table(s[i])
  {
    if s == [] then [] else Mapped(s[..|s| - 1], table) + [table(s[|s| - 1])]
  }

  method Permute(data: array<bv8>, table: bv8 -> bv8)
    modifies data
    ensures data[..] == Mapped(old(data[..]), table)
  {
    for i := 0 to data.Length
      invariant forall k :: 0 <= k < i ==> data[k] == table(old(data[k]))
      invariant forall k :: i <= k < data.Length ==> data[k] == old(data[k])
    {
      data[i] := table(data[i]);
    }
  }

  method EncodeBlock(data: array<bv8>)
    modifies data
    ensures data[..] == Mapped(old(data[..]), KeyDataR)
  {
    Permute(data, KeyDataR);
  }

  method DecodeBlock(data: array<bv8>)
    modifies data
    ensures data[..] == Mapped(old(data[..]), KeyDataI)
  {
    Permute(data, KeyDataI);
  }

  lemma PermuteRoundTrip(s: seq<bv8>)
    ensures Mapped(Mapped(s, KeyDataR), KeyDataI) == s
    ensures Mapped(Mapped(s, KeyDataI), KeyDataR) == s
  {
    forall i | 0 <= i < |s|
      ensures KeyDataI(KeyDataR(s[i])) == s[i] && KeyDataR(KeyDataI(s[i])) == s[i]
    {
      InverseOfR(s[i]);
      InverseOfI(s[i]);
    }
  }

  // Cyclic encoding.

  datatype KeyTables = KeyTables(r: bv8 -> bv8, s: bv8 -> bv8, i: bv8 -> bv8)

  const KEY_TABLES := KeyTables(KeyDataR, KeyDataS, KeyDataI)

  ghost predicate Invertible(t: KeyTables) {
    && (forall b :: t.i(t.r(b)) == b)
    && (forall b :: t.r(t.i(b)) == b)
    && (forall b :: t.s(t.s(b)) == b)
  }

  lemma KeyTablesInvertible()
    ensures Invertible(KEY_TABLES)
  {
    forall b ensures KeyDataI(KeyDataR(b)) == b { InverseOfR(b); }
    forall b ensures KeyDataR(KeyDataI(b)) == b { InverseOfI(b); }
    forall b ensures KeyDataS(KeyDataS(b)) == b { InvolutionS(b); }
  }

  /** The 16-bit running key a 32-bit block key starts from. */
  function FoldKey(key: bv32): bv16 {
    ((key ^ (key >> 16)) & 0xFFFF) as bv16
  }

  function LowKey(key: bv16): bv8 {
    (key & 0xFF) as bv8
  }

  function HighKey(key: bv16): bv8 {
    (key >> 8) as bv8
  }

  /** The running key after n bytes: a 16-bit counter, so it wraps. */
  function KeyAfter(key: bv16, n: nat): bv16 {
    if n == 0 then key else KeyAfter(key, n - 1) + 1
  }

  function WrappingAdd(x: bv8, y: bv8): bv8 {
    x + y
  }

  function WrappingSub(x: bv8, y: bv8): bv8 {
    x - y
  }

  /** Seven operations on one byte. */
  function CycleByte(b: bv8, low: bv8, high: bv8, t: KeyTables): bv8 {
    var r := t.r(WrappingAdd(b, low));
    var s := t.s(WrappingAdd(r, high));
    WrappingSub(t.i(WrappingSub(s, high)), low)
  }

  function CycleAt(b: bv8, key: bv16, n: nat, t: KeyTables): bv8 {
    CycleByte(b, LowKey(KeyAfter(key, n)), HighKey(KeyAfter(key, n)), t)
  }

  /** Every byte is coded with the key of its own position. */
  function Cycled(s: seq<bv8>, key: bv16, t: KeyTables): (r: seq<bv8>)
    ensures |r| == |s|
    ensures forall i :: 0 <= i < |s| ==> r[i] == CycleAt(s[i], key, i, t)
  {
    if s == [] then []
    else Cycled(s[..|s| - 1], key, t) + [CycleAt(s[|s| - 1], key, |s| - 1, t)]
  }

  /** The body of the block loop: one byte, through one overwrite after the other. */
  method CycleInPlace(data: array<bv8>, i: nat, lowKey: bv8, highKey: bv8, t: KeyTables)
    requires i < data.Length
    modifies data
    ensures data[i] == CycleByte(old(data[i]), lowKey, highKey, t)
    ensures forall k :: 0 <= k < data.Length && k != i ==> data[k] == old(data[k])
  {
    data[i] := WrappingAdd(data[i], lowKey);
    data[i] := t.r(data[i]);
    data[i] := WrappingAdd(data[i], highKey);
    data[i] := t.s(data[i]);
    data[i] := WrappingSub(data[i], highKey);
    data[i] := t.i(data[i]);
    data[i] := WrappingSub(data[i], lowKey);
  }

  method EncodeDecodeWith(data: array<bv8>, initial: bv16, t: KeyTables)
    modifies data
    ensures data[..] == Cycled(old(data[..]), initial, t)
  {
    var key := initial;
    for i := 0 to data.Length
      invariant key == KeyAfter(initial, i)
      invariant forall k :: 0 <= k < i ==> data[k] == CycleAt(old(data[k]), initial, k, t)
      invariant forall k :: i <= k < data.Length ==> data[k] == old(data[k])
    {
      CycleInPlace(data, i, LowKey(key), HighKey(key), t);
      key := key + 1;
    }
  }

  method EncodeDecodeBlock(data: array<bv8>, blockKey: bv32)
    modifies data
    ensures data[..] == Cycled(old(data[..]), FoldKey(blockKey), KEY_TABLES)
  {
    EncodeDecodeWith(data, FoldKey(blockKey), KEY_TABLES);
  }

  lemma AddAfterSub(x: bv8, k: bv8, d: bv8)
    requires d == x - k
    ensures d + k == x
  {}

  lemma SubAfterAdd(x: bv8, k: bv8, d: bv8)
    requires d == x + k
    ensures d - k == x
  {}

  lemma SubThenAdd(x: bv8, k: bv8)
    ensures WrappingAdd(WrappingSub(x, k), k) == x
  {
    AddAfterSub(x, k, WrappingSub(x, k));
  }

  lemma AddThenSub(x: bv8, k: bv8)
    ensures WrappingSub(WrappingAdd(x, k), k) == x
  {
    SubAfterAdd(x, k, WrappingAdd(x, k));
  }

  ghost predicate Undone<T(!new)>(add: (T, T) -> T, sub: (T, T) -> T) {
    && (forall x, k :: add(sub(x, k), k) == x)
    && (forall x, k :: sub(add(x, k), k) == x)
  }

  lemma WrappingUndone()
    ensures Undone(WrappingAdd, WrappingSub)
  {
    forall x, k
      ensures WrappingAdd(WrappingSub(x, k), k) == x && WrappingSub(WrappingAdd(x, k), k) == x
    {
      SubThenAdd(x, k);
      AddThenSub(x, k);
    }
  }

  /** Only two facts about the byte arithmetic matter: adding and subtracting one key undo each other. */
  lemma CycleTwice(add: (bv8, bv8) -> bv8, sub: (bv8, bv8) -> bv8, t: KeyTables,
      b: bv8, once: bv8, low: bv8, high: bv8)
    requires Undone(add, sub) && Invertible(t)
    requires once == sub(t.i(sub(t.s(add(t.r(add(b, low)), high)), high)), low)
    ensures sub(t.i(sub(t.s(add(t.r(add(once, low)), high)), high)), low) == b
  {
    var r := t.r(add(b, low));
    var s := t.s(add(r, high));
    assert add(once, low) == t.i(sub(s, high));
    assert t.r(add(once, low)) == sub(s, high);
    assert add(sub(s, high), high) == s;
    assert t.s(s) == add(r, high);
    assert sub(add(r, high), high) == r;
    assert t.i(r) == add(b, low);
    assert sub(add(b, low), low) == b;
  }

  lemma CycleByteTwice(b: bv8, low: bv8, high: bv8, t: KeyTables)
    requires Invertible(t)
    ensures CycleByte(CycleByte(b, low, high, t), low, high, t) == b
  {
    WrappingUndone();
    CycleTwice(WrappingAdd, WrappingSub, t, b, CycleByte(b, low, high, t), low, high);
  }

  lemma CycledTwice(s: seq<bv8>, key: bv16, t: KeyTables)
    requires Invertible(t)
    ensures Cycled(Cycled(s, key, t), key, t) == s
  {
    var once := Cycled(s, key, t);
    forall i | 0 <= i < |s| ensures Cycled(once, key, t)[i] == s[i] {
      CycleByteTwice(s[i], LowKey(KeyAfter(key, i)), HighKey(KeyAfter(key, i)), t);
    }
  }

  /** Coding a block twice with one key restores it, whatever its length and wherever the key wraps. */
  lemma CycleRoundTrip(s: seq<bv8>, blockKey: bv32)
    ensures Cycled(Cycled(s, FoldKey(blockKey), KEY_TABLES), FoldKey(blockKey), KEY_TABLES) == s
  {
    KeyTablesInvertible();
    CycledTwice(s, FoldKey(blockKey), KEY_TABLES);
  }
}
