# ForceManII core in Dafny

This project models the core of ForceManII, a molecular-mechanics force-field
engine. The core has three parts.

- **Coordinate enumeration** (`get_coords`). The connectivity graph of a
  molecule is walked up to four atoms deep. The walk lists every bond, angle,
  torsion and improper torsion once, and files every unbonded atom pair as a
  1,3 pair, a 1,4 pair or a plain pair.
- **Parameter assignment** (`assign_params`). For every term of a force field
  and every coordinate tuple the term acts on, the atoms are mapped to types
  or classes. The tuple is put in canonical order, and each parameter comes
  either from a combination rule over single-atom values or from a direct
  table lookup.
- **The force-field file parser** (`parse_file` and its helpers). A
  keyword-driven reader fills the force-field record line by line:
  registration of terms, their typing and ordering rules, and parameter
  entries. At the end of the file it links the 1-4 terms to the general ones
  and sets the charge combination rule.

Modules:

| file | module | contents |
|---|---|---|
| defs.dfy | Defs | parameter names, coordinate kinds, models, term types, the `ForceField` record, `Option`/`Result` |
| tuples.dfy | Tuples | lexicographic order on atom tuples; flattening of nested loops |
| coord_spec.dfy | CoordSpec | the graph, the loop-by-loop specification of the walk, and what each collection contains |
| coords.dfy | Coords | `get_coords` as imperative methods, one per loop level, each proved equal to its specification |
| coord_facts.dfy | CoordFacts | one direction per bond, angle and torsion; the pair partition; improper shape |
| assign.dfy | Assign | `assign_params` as loops proved equal to left folds |
| assign_facts.dfy | AssignFacts | parameter vectors aligned with coordinate instances; combination rules symmetric in the atoms |
| tokens.dfy | Tokens | `s_comp` and `tokenize`, with their properties |
| parse.dfy | Parse | keyword dispatch, `set_mean`, `generic_fill`, `parse_imp`/`parse_himp`, `parse_lj`, `parse_chg`, torsion triples, final linking, and the registration invariant |
| parse_facts.dfy | ParseFacts | what a parsed force field means for assignment |

Functions the code calls but does not define here are parameters of the
model. In the parser they are fields of `Parse.Context`:
- `add_param`, `link_terms`, `get_term` and the ordering functions;
- `stoi`/`stoul`, as `index`;
- `stod` together with each unit conversion, as `scaled`.

In assignment they are fields of `Assign.Hooks`: the ordering functions and
`std::pow(x, 1.0/n)`.

Where the design description and the code disagree, the model follows the
code:
- `get_coords` fails only on an atom-count mismatch and on an atom bonded to
  itself. It does not check that the connectivity is symmetric
  (FManII.cpp:34, 47, 49, 52).
- The torsion loop does not exclude `l == i`, so a three-membered ring yields
  the torsion `i-j-k-i` (`CoordFacts.RingTorsionDegenerate`).
- The improper loop does not check that `i` is a neighbour of the centre
  `j`. In a graph that is not symmetric one angle can then get two impropers
  (`CoordFacts.OneSidedImpropers`). In a symmetric graph it gets at most one
  (`CoordFacts.ImproperPerAngle`).
- The code creates no PAIR13 collection (see Findings).

## Model

| member | source | states |
|---|---|---|
| Coords.GetCoords | ForceManII/FManII.cpp:31-87 | Fails exactly on an atom-count mismatch or a self-bond, with the matching error. Otherwise it returns the seven collections of `Coordinates(g)`, each strictly sorted, with exactly the tuples the graph determines. |
| Coords.WalkGraph | ForceManII/FManII.cpp:45-74 | The walk over every atom yields the bond, angle, torsion and improper lists and the 1,2 / 1,3 / 1,4 pair sets of the specification. |
| Coords.WalkJ | ForceManII/FManII.cpp:46-73 | The neighbour loop of atom i appends exactly the bonds, angles, torsions, impropers and pairs the specification gives for i. |
| Coords.VisitJ | ForceManII/FManII.cpp:46-72 | One neighbour j: the k loop's results, then the bond i-j and the 1,2 pair only when i <= j. |
| Coords.WalkK | ForceManII/FManII.cpp:48-68 | The k loop for i-j appends the angles, torsions, impropers and 1,3 / 1,4 pairs of the specification. |
| Coords.VisitK | ForceManII/FManII.cpp:49-67 | One k: nothing when k == i; the l loop's torsions and 1,4 pairs; angle, 1,3 pair and the impropers only when i <= k. |
| Coords.WalkL | ForceManII/FManII.cpp:51-58 | The l loop records (i, l) when l > i, and a torsion only when l != j and j <= k. |
| Coords.ImpLoop | ForceManII/FManII.cpp:63-67 | Over the row of a centre with three neighbours, appends i-j-k-l for l other than k and i with l >= k. |
| Coords.FilePair | ForceManII/FManII.cpp:77-83 | An unbonded pair goes to PAIR13 if 1,3, else PAIR14 if 1,4, else PAIR. A bonded pair goes nowhere. No other collection changes. |
| Coords.ClassifyRow | ForceManII/FManII.cpp:76-84 | The j loop for one i appends to each collection exactly the pairs (i, j), i < j < n, that belong to it. |
| Coords.ClassifyPairs | ForceManII/FManII.cpp:75-85 | The pair loop appends to each collection exactly the pairs i < j < n that belong to it, in lexicographic order. |
| Coords.FindSelfBond | ForceManII/FManII.cpp:47-52 | Finds a self-bond exactly when the graph has one. |
| Coords.Collect | ForceManII/FManII.cpp:37-85 | Files the walk's lists and the pair loop's results into all seven collections. |
| Coords.SourceCollections | ForceManII/FManII.cpp:37-43 | The collections as written: six keys, with no PAIR13. |
| Coords.AnglePairFiledPair13 | ForceManII/FManII.cpp:60-61 | Any unbonded pair that spans an angle is classified PAIR13. |
| Coords.Pair13CollectionMissing | ForceManII/FManII.cpp:81-83 | On the chain 0-1-2 the pair (0, 2) is classified PAIR13, a key the collections as written do not have. |
| Coords.CollectedIsCollections | ForceManII/FManII.cpp:37-85 | Collections holding the walk's lists and the pair loop's results are the specified ones. |
| CoordSpec.CoordinatesEnumerate | ForceManII/FManII.cpp:31-87 | The result has the seven kinds, each strictly sorted. Each tuple list holds exactly its graph tuples, and each unbonded pair is in exactly the collection its 1,3 / 1,4 status selects. |
| CoordSpec.CoordinatesSorted | ForceManII/FManII.cpp:45-85 | Every collection is strictly increasing in lexicographic order, hence free of duplicates. |
| CoordSpec.CoordinatesLists | ForceManII/FManII.cpp:45-74 | Bonds, angles, torsions and impropers are exactly the graph tuples that satisfy the tie-breaks. |
| CoordSpec.CoordinatesPairs | ForceManII/FManII.cpp:75-85 | The PAIR13, PAIR14 and PAIR collections partition the unbonded pairs by 1,3 / 1,4 status. |
| CoordSpec.PairKindOfGraph | ForceManII/FManII.cpp:78-82 | After the full walk a pair is classified as none (bond), PAIR13 (1,3), PAIR14 (1,4) or PAIR, in that priority. |
| CoordSpec.AllBonds | ForceManII/FManII.cpp:70-72 | The bond list holds exactly the edges i-j with i <= j. |
| CoordSpec.AllAngles | ForceManII/FManII.cpp:60-62 | The angle list holds exactly the non-backtracking walks i-j-k with i <= k. |
| CoordSpec.AllTorsions | ForceManII/FManII.cpp:51-58 | The torsion list holds exactly the non-backtracking walks i-j-k-l with j <= k. |
| CoordSpec.AllImps | ForceManII/FManII.cpp:63-67 | The improper list holds exactly the angles i-j-k whose centre has three neighbours, extended by the third neighbour l >= k. |
| CoordSpec.AllPairs | ForceManII/FManII.cpp:75-85 | Each pair collection holds exactly the unbonded pairs classified into it. |
| CoordSpec.TorsionsIMember | ForceManII/FManII.cpp:45-58 | After the first m start atoms, the torsions are exactly the torsion walks starting below m. |
| CoordSpec.TorsionsJMember | ForceManII/FManII.cpp:46-58 | Membership in the torsions from atom i over neighbours js. |
| CoordSpec.TorsionsKMember | ForceManII/FManII.cpp:48-58 | Membership in the torsions through i-j over ks, none when k == i. |
| CoordSpec.TorsionsLMember | ForceManII/FManII.cpp:51-58 | Membership in the torsions through i-j-k over ls: l != j and j <= k. |
| CoordSpec.TorsionsISorted | ForceManII/FManII.cpp:45-58 | The torsions are appended in strictly increasing lexicographic order. |
| CoordSpec.TorsionsJSorted | ForceManII/FManII.cpp:46-58 | The torsions of start atom i are sorted and begin with i. |
| CoordSpec.TorsionsKSorted | ForceManII/FManII.cpp:48-58 | The torsions of i-j are sorted and begin with i, j. |
| CoordSpec.TorsionsLSorted | ForceManII/FManII.cpp:51-58 | The torsions of i-j-k are sorted and begin with i, j, k. |
| CoordSpec.AnglesIMember | ForceManII/FManII.cpp:45-62 | After the first m start atoms, the angles are exactly the angle walks starting below m. |
| CoordSpec.AnglesJMember | ForceManII/FManII.cpp:46-62 | Membership in the angles from i over neighbours js. |
| CoordSpec.AnglesKMember | ForceManII/FManII.cpp:48-62 | Membership in the angles through i-j over ks: k != i and i <= k. |
| CoordSpec.AnglesISorted | ForceManII/FManII.cpp:45-62 | The angles are appended in strictly increasing lexicographic order. |
| CoordSpec.AnglesJSorted | ForceManII/FManII.cpp:46-62 | The angles of start atom i are sorted and begin with i. |
| CoordSpec.AnglesKSorted | ForceManII/FManII.cpp:48-62 | The angles of i-j are sorted and begin with i, j. |
| CoordSpec.ImpsIMember | ForceManII/FManII.cpp:45-67 | After the first m start atoms, the impropers are exactly those starting below m. |
| CoordSpec.ImpsJMember | ForceManII/FManII.cpp:46-67 | Membership in the impropers from i over neighbours js. |
| CoordSpec.ImpsKMember | ForceManII/FManII.cpp:48-67 | Membership in the impropers through i-j over ks. |
| CoordSpec.ImpsLMember | ForceManII/FManII.cpp:64-66 | Membership in the impropers of angle i-j-k over ls: l != k, l != i, l >= k. |
| CoordSpec.ImpsISorted | ForceManII/FManII.cpp:45-67 | The impropers are appended in strictly increasing lexicographic order. |
| CoordSpec.ImpsJSorted | ForceManII/FManII.cpp:46-67 | The impropers of start atom i are sorted and begin with i. |
| CoordSpec.ImpsKSorted | ForceManII/FManII.cpp:48-67 | The impropers of i-j are sorted and begin with i, j. |
| CoordSpec.ImpsLSorted | ForceManII/FManII.cpp:64-66 | The impropers of i-j-k are sorted and begin with i, j, k. |
| CoordSpec.BondsIMember | ForceManII/FManII.cpp:45-72 | After the first m start atoms, the bonds are exactly the edges i-j, i <= j, with i < m. |
| CoordSpec.BondsJMember | ForceManII/FManII.cpp:70-72 | Membership in the bonds of i over neighbours js: i <= j. |
| CoordSpec.BondsISorted | ForceManII/FManII.cpp:45-72 | The bonds are appended in strictly increasing lexicographic order. |
| CoordSpec.BondsJSorted | ForceManII/FManII.cpp:70-72 | The bonds of i are sorted and begin with i. |
| CoordSpec.Pair14IMember | ForceManII/FManII.cpp:45-56 | After the first m start atoms, the 1,4 set holds exactly the ends (i, l), i < m, of non-backtracking three-bond walks with l > i. |
| CoordSpec.Pair14JMember | ForceManII/FManII.cpp:46-56 | Membership in the 1,4 pairs from i over neighbours js. |
| CoordSpec.Pair14KMember | ForceManII/FManII.cpp:48-56 | Membership in the 1,4 pairs through i-j over ks, none when k == i. |
| CoordSpec.Pair14LMember | ForceManII/FManII.cpp:51-56 | Membership in the 1,4 pairs of i-j-k over ls: l != j and l > i, whatever j and k are. |
| CoordSpec.Pair13IMember | ForceManII/FManII.cpp:45-61 | After the first m start atoms, the 1,3 set holds exactly the ends (i, k), i < m, of angles. |
| CoordSpec.Pair13JMember | ForceManII/FManII.cpp:46-61 | Membership in the 1,3 pairs from i over neighbours js. |
| CoordSpec.Pair13KMember | ForceManII/FManII.cpp:60-61 | Membership in the 1,3 pairs of i-j over ks: k != i and i <= k. |
| CoordSpec.Pair12IMember | ForceManII/FManII.cpp:45-71 | After the first m start atoms, the 1,2 set holds exactly the bonds starting below m. |
| CoordSpec.Pair12JMember | ForceManII/FManII.cpp:70-71 | Membership in the 1,2 pairs of i over js: i <= j. |
| CoordSpec.PairsIMember | ForceManII/FManII.cpp:75-83 | After the first m rows, collection c holds exactly the pairs i < j < n, i < m, classified into c. |
| CoordSpec.PairsJMember | ForceManII/FManII.cpp:76-83 | Membership in the pairs of row i appended to c. |
| CoordSpec.PairsIFound | ForceManII/FManII.cpp:75-83 | A pair found in some row is a pair i < j < n classified into c. |
| CoordSpec.PairsISorted | ForceManII/FManII.cpp:75-85 | Pairs are appended in strictly increasing lexicographic order. |
| CoordSpec.PairsJSorted | ForceManII/FManII.cpp:76-84 | The pairs of row i are sorted and begin with i. |
| CoordFacts.BondOneDirection | ForceManII/FManII.cpp:70-72 | In a symmetric, self-bond-free graph each bond is listed in exactly one direction, the one with i < j. |
| CoordFacts.AngleOneDirection | ForceManII/FManII.cpp:60-62 | In a symmetric graph each angle is listed in exactly one direction, the one with i < k. |
| CoordFacts.TorsionOneDirection | ForceManII/FManII.cpp:57-58 | In a symmetric, self-bond-free graph each torsion is listed in exactly one direction, the one with j < k. |
| CoordFacts.TorsionWalkReversed | ForceManII/FManII.cpp:51-58 | A walk and its reverse are torsions exactly when j < k, and k < j, respectively. |
| CoordFacts.ImproperOrdered | ForceManII/FManII.cpp:63-66 | A listed improper has a centre with three neighbours, all three bonded to it, and i < k < l. |
| CoordFacts.PairPartition | ForceManII/FManII.cpp:70-85 | Every pair i < j is in exactly one of the bond, PAIR13, PAIR14 and PAIR collections. |
| CoordFacts.ImproperPerAngle | ForceManII/FManII.cpp:63-66 | In a well-formed symmetric graph, two listed impropers that agree on their first three atoms are equal, so each angle has at most one improper. |
| CoordFacts.SameAngleSameImproper | ForceManII/FManII.cpp:63-66 | The step behind ImproperPerAngle: the centre has three distinct neighbours, two of them fixed, so the fourth atom is the third. |
| CoordFacts.OneSidedImpropers | ForceManII/FManII.cpp:63-66 | In the graph [[1], [2, 3, 4], [], [], []], which is not symmetric, both 0-1-2-3 and 0-1-2-4 are listed. |
| CoordFacts.RingTorsionDegenerate | ForceManII/FManII.cpp:50-58 | In a three-membered ring the torsion i-j-k-i is listed. |
| Assign.AssignParams | ForceManII/FManII.cpp:89-145 | Fails exactly when some term fails, with one such term's error. Otherwise each term's vectors are its own resolution (`TermParams`), whatever order the terms are visited in, and a term that pushed nothing has no entry. What those vectors hold, value by value, is stated by `AssignFacts.TermContents`. |
| Assign.AssignTerm | ForceManII/FManII.cpp:95-142 | One term: a missing typing fails first, then the coordinate loop. |
| Assign.PushCoords | ForceManII/FManII.cpp:98-142 | The loop over the term's coordinate kinds; a kind with no collection fails. |
| Assign.PushInstances | ForceManII/FManII.cpp:100-141 | The loop over the tuples of one collection: map, order, push every parameter. |
| Assign.PushParams | ForceManII/FManII.cpp:108-140 | The parameter loop for one tuple. |
| Assign.PushParam | ForceManII/FManII.cpp:109-139 | One parameter: appends its combined value or its looked-up values to its vector. |
| Assign.ParamValues | ForceManII/FManII.cpp:109-139 | Width values per instance. Without a combination rule, the ordered tuple's entry is missing (fails), zero-padded to three (Fourier), or must have exactly one value. With a rule, exactly one value: the rule applied to the first single-atom component of each atom type, in atom order. |
| Assign.MapTypes | ForceManII/FManII.cpp:100-105 | Maps each atom to its type or, for CLASS terms, its class. Fails with the first atom type that has no class. |
| Assign.TypesFrom | ForceManII/FManII.cpp:102-105 | Succeeds exactly when every type has a class where one is needed; the result has one entry per atom. |
| Assign.ComponentsFacts | ForceManII/FManII.cpp:115-122 | The single-atom lookups succeed exactly when every type has a first component, and give those components in order. |
| Assign.Accumulate | ForceManII/FManII.cpp:112-122 | The accumulation loops compute the sum, or the product, of the components. |
| Assign.CombineParam | ForceManII/FManII.cpp:110-125 | The arithmetic mean, the plain product, or the n-th root of the product. |
| AssignFacts.TermAligned | ForceManII/FManII.cpp:98-141 | Each parameter's vector has Width values per coordinate instance and per occurrence of the parameter in the model. Vectors exist exactly for the model's parameters, and only when there are instances. |
| AssignFacts.TermContents | ForceManII/FManII.cpp:98-141 | Instance b, counted collection by collection in the term's order and tuple by tuple within each collection, maps to types and resolves every parameter. Block b of a vector, the values from b times the per-instance width up to (b + 1) times it, is exactly what that instance contributes. |
| AssignFacts.SingleBlock | ForceManII/FManII.cpp:100-139 | For a parameter that occurs once in the model, an instance's block is ParamValues of its mapped tuple and that tuple's canonical ordering. |
| AssignFacts.ParamsContents | ForceManII/FManII.cpp:108-140 | The parameter loop for one tuple succeeds only if every model parameter resolves. It appends to each vector that parameter's values once per occurrence in the model. |
| AssignFacts.InstancesContents | ForceManII/FManII.cpp:100-141 | The loop over one collection appends to each vector the blocks of its tuples, in tuple order. |
| AssignFacts.InstancesResolve | ForceManII/FManII.cpp:100-141 | If the loop over one collection succeeds, every tuple maps to types and every parameter resolves for it. |
| AssignFacts.CoordsContents | ForceManII/FManII.cpp:98-142 | The coordinate loop appends to each vector the blocks of all instances: collection by collection, then tuple by tuple. |
| AssignFacts.CoordsResolve | ForceManII/FManII.cpp:98-142 | If the coordinate loop succeeds, every instance it visits maps to types and every parameter resolves for it. |
| AssignFacts.CoordsAligned | ForceManII/FManII.cpp:98-142 | Vector lengths grow by instances times per-instance width over the coordinate loop. |
| AssignFacts.InstancesAligned | ForceManII/FManII.cpp:100-141 | Vector lengths grow by the number of tuples times per-instance width over one collection. |
| AssignFacts.ParamsAligned | ForceManII/FManII.cpp:108-140 | One tuple adds Width values per occurrence of each parameter. |
| AssignFacts.ParamsCount | ForceManII/FManII.cpp:108-140 | The per-parameter length count of one tuple. |
| AssignFacts.ParamsKeys | ForceManII/FManII.cpp:108-140 | One tuple creates vectors exactly for the model's parameters. |
| AssignFacts.StepAligned | ForceManII/FManII.cpp:126-138 | One parameter step appends exactly Width values to that parameter only. |
| AssignFacts.CombinePermutation | ForceManII/FManII.cpp:110-125 | A combined value depends only on the multiset of atom components, not on their order. |
| AssignFacts.RunningPermutation | ForceManII/FManII.cpp:112-122 | The running sum and the running product are invariant under permutation. |
| AssignFacts.RunningRemove | ForceManII/FManII.cpp:112-122 | Taking one component out of the running value and putting it in last gives the same running value. |
| Tokens.SComp | ForceManII/ParseFile.cpp:29-34 | True exactly when the lengths agree and the characters agree position by position after C-locale toupper. |
| Tokens.AgreeFrom | ForceManII/ParseFile.cpp:31-32 | The comparison loop from position i holds exactly when every later position agrees. |
| Tokens.SCompUpper | ForceManII/ParseFile.cpp:29-34 | s_comp is equality of the upper-cased strings. |
| Tokens.SCompReflexive | ForceManII/ParseFile.cpp:29-34 | Every string matches itself. |
| Tokens.SCompSymmetric | ForceManII/ParseFile.cpp:29-34 | The comparison is symmetric. |
| Tokens.SCompTransitive | ForceManII/ParseFile.cpp:29-34 | The comparison is transitive. |
| Tokens.SCompCaseInsensitive | ForceManII/ParseFile.cpp:29-34 | Upper-casing an argument does not change the answer. |
| Tokens.Tokenize | ForceManII/ParseFile.cpp:43-53 | The extraction loop yields `Words(line)`. |
| Tokens.WordsAreTokens | ForceManII/ParseFile.cpp:46-51 | Every token is non-empty and free of whitespace. |
| Tokens.WordsConcat | ForceManII/ParseFile.cpp:46-51 | Concatenated in order, the tokens are the line without its whitespace. |
| Tokens.WordsOfJoined | ForceManII/ParseFile.cpp:43-53 | Tokens joined by any whitespace, with at least one space between neighbours, tokenize back to themselves. |
| Parse.KeywordOfMatches | ForceManII/ParseFile.cpp:174-235 | The chosen keyword matches the first token. No keyword is chosen exactly when none matches, and one is chosen whenever one matches. |
| Parse.FirstMatchIsFirst | ForceManII/ParseFile.cpp:174-235 | The chain picks the first keyword, in the source's test order, that matches. |
| Parse.FirstMatch | ForceManII/ParseFile.cpp:174-235 | A keyword found is in the list and matches the token. |
| Parse.KeywordListed | ForceManII/ParseFile.cpp:174-235 | Every keyword is tested by the chain. |
| Parse.KeywordOfCaseInsensitive | ForceManII/ParseFile.cpp:174-235 | The dispatch does not depend on the letter case of the first token. |
| Parse.FirstMatchCaseInsensitive | ForceManII/ParseFile.cpp:174-235 | The search does not depend on the letter case of the token. |
| Parse.MeanRule | ForceManII/ParseFile.cpp:37-40 | GEOMETRIC selects the geometric rule and ARITHMETIC the arithmetic one, case-insensitively. Never the product rule. |
| Parse.SetMean | ForceManII/ParseFile.cpp:37-40 | Only the combination rule of p changes, to the rule named. An unknown token changes nothing. |
| Parse.MeanRuleCaseInsensitive | ForceManII/ParseFile.cpp:37-40 | The rule a token names does not depend on its case. |
| Parse.TypeKey | ForceManII/ParseFile.cpp:68-69 | The tuple has n entries, the i-th read from token i + 1. |
| Parse.GenericFill | ForceManII/ParseFile.cpp:55-75 | The record generic_fill produces, `Filled`. |
| Parse.FilledRegistry | ForceManII/ParseFile.cpp:63-67 | The order rule is always overwritten. The typing and the term record are set only when absent. |
| Parse.FilledParams | ForceManII/ParseFile.cpp:68-74 | Nothing is stored when any vector is empty; otherwise every vector is stored under the ordered type tuple. Rules, scales and classes are unchanged. |
| Parse.Register | ForceManII/ParseFile.cpp:63-67 | The registration steps of generic_fill. |
| Parse.ReadKey | ForceManII/ParseFile.cpp:68-69 | The loop reads `TypeKey`. |
| Parse.AllComplete | ForceManII/ParseFile.cpp:71-72 | True exactly when no vector is empty. |
| Parse.AddParams | ForceManII/ParseFile.cpp:73-74 | Stores every (name, values) under the tuple, in order. |
| Parse.CentreSecondFacts | ForceManII/ParseFile.cpp:83-89 | Moving the centre is a permutation of the four positions that puts the centre second. CHARMM (centre 0) gives t1 t0 t2 t3; otherwise (centre 2) t0 t2 t1 t3. |
| Parse.CentreSecond | ForceManII/ParseFile.cpp:86-89 | Four atoms. |
| Parse.Skip | ForceManII/ParseFile.cpp:87-88 | The i-th non-centre position is i or i + 1, never the centre. |
| Parse.CentreTuple | ForceManII/ParseFile.cpp:86-89 | The loop collecting the non-centre atoms yields `CentreSecond`. |
| Parse.ImproperFacts | ForceManII/ParseFile.cpp:90-99 | An improper line forces CLASS typing and the improper order, registers the term if absent, and changes no rule, scale or class. |
| Parse.FillImproper | ForceManII/ParseFile.cpp:78-124 | parse_imp and parse_himp produce `ImproperFilled` (FS_IMP with amp/phi/n, HO_IMP with K/r0; phi is 180 degrees for CHARMM). |
| Parse.ReadImproperKey | ForceManII/ParseFile.cpp:83-89 | The tuple read, centre moved second, then ordered. |
| Parse.TripleCount | ForceManII/ParseFile.cpp:219-221 | At most three triples; the count is the largest c with 5 + 3c <= n. |
| Parse.TripleColumn | ForceManII/ParseFile.cpp:219-225 | One entry per complete triple, read from the triple's tokens. |
| Parse.ReadTriples | ForceManII/ParseFile.cpp:218-225 | Three equal-length vectors of at most three entries. The loop stops exactly at the first incomplete triple and reads each column in order. |
| Parse.ShortTorsionStoresNothing | ForceManII/ParseFile.cpp:216-228 | A torsion line without a complete triple registers the term but stores no parameters. |
| Parse.RegisterPairs | ForceManII/ParseFile.cpp:139-145 | The loop over PAIR and PAIR14 produces `EnrolPairs`. |
| Parse.EnrolPairsFrame | ForceManII/ParseFile.cpp:139-158 | The registration loop changes only typings and term records. |
| Parse.EnrolPairsTerms | ForceManII/ParseFile.cpp:143-157 | Every term of the loop is registered; a new one gets the record get_term gives. |
| Parse.EnrolPairsTypes | ForceManII/ParseFile.cpp:141-155 | With a forced typing (charges: TYPE) each term gets it. Otherwise (6-12 terms) a term keeps its typing or defaults to CLASS. Other typings are kept. |
| Parse.ParseLj | ForceManII/ParseFile.cpp:127-147 | parse_lj: sigma and epsilon stored under the type, both 6-12 terms registered. |
| Parse.ParseCharge | ForceManII/ParseFile.cpp:149-159 | parse_chg: the charge stored for CL under the type, both charge terms typed TYPE and registered. |
| Parse.LineEffect | ForceManII/ParseFile.cpp:172-235 | A failing line fails with its own tokens. |
| Parse.LineSkipped | ForceManII/ParseFile.cpp:173-235 | Lines of at most one token, and lines whose first token names no keyword, leave the state alone. |
| Parse.LineFails | ForceManII/ParseFile.cpp:173-235 | A line fails exactly when its keyword needs more tokens than it has. |
| Parse.ApplySetting | ForceManII/ParseFile.cpp:174-196 | The settings branches update only what each names: rule, scale, typing, flag or class. |
| Parse.ApplyTerm | ForceManII/ParseFile.cpp:197-235 | The record-building branches call their builders. |
| Parse.ParseLine | ForceManII/ParseFile.cpp:171-236 | One iteration of the line loop: tokenize, then `LineEffect`. |
| Parse.Finish | ForceManII/ParseFile.cpp:237-245 | LJ14 is linked to LJ and CL14 to CL. The charge rule becomes product exactly when an electrostatics term is registered. |
| Parse.ParseFile | ForceManII/ParseFile.cpp:161-248 | The record parse_file returns satisfies the registration invariant. The charge rule is present exactly when a charge term is registered, and is then the product. |
| Parse.ParseSpecRegistered | ForceManII/ParseFile.cpp:161-248 | Every parsed record satisfies the registration invariant. |
| Parse.ParseSpecChargeRule | ForceManII/ParseFile.cpp:237-245 | The charges combine, by product, exactly when a charge term is registered. |
| Parse.ParseFromPreserves | ForceManII/ParseFile.cpp:171-236 | Every state the line loop reaches keeps the invariant. |
| Parse.ParseFromKeepsRules | ForceManII/ParseFile.cpp:171-236 | Before the linking, only 6-12 combination rules are ever set. |
| Parse.LinePreserves | ForceManII/ParseFile.cpp:172-235 | Every line keeps the registration invariant. |
| Parse.ApplyPreserves | ForceManII/ParseFile.cpp:174-235 | Every branch keeps the invariant. |
| Parse.SettingPreserves | ForceManII/ParseFile.cpp:174-196 | The settings branches keep the invariant. vdwindex may set either typing on the 6-12 terms. |
| Parse.TermPreserves | ForceManII/ParseFile.cpp:197-235 | The record-building branches keep the invariant. |
| Parse.RecordTermPreserves | ForceManII/ParseFile.cpp:197-229 | bond, angle, ureybrad, torsion, imptors and improper keep the invariant. |
| Parse.PairTermPreserves | ForceManII/ParseFile.cpp:230-235 | charge, vdw and vdw14 keep the invariant. |
| Parse.FilledPreserves | ForceManII/ParseFile.cpp:55-75 | generic_fill with a known term's own rule and CLASS typing keeps the invariant. |
| Parse.ImproperPreserves | ForceManII/ParseFile.cpp:78-124 | The improper builders keep the invariant. |
| Parse.LjPreserves | ForceManII/ParseFile.cpp:127-147 | parse_lj keeps the invariant. |
| Parse.PairsPreserve | ForceManII/ParseFile.cpp:139-158 | The pair registration loops keep the invariant. |
| Parse.ParamsIrrelevant | ForceManII/ParseFile.cpp:74 | Storing parameters does not affect the invariant. |
| Parse.RuleSetPreserves | ForceManII/ParseFile.cpp:63 | Storing a term's own order rule keeps the invariant. |
| Parse.TypingSetPreserves | ForceManII/ParseFile.cpp:64-65 | Storing a known term's expected typing keeps the invariant. |
| Parse.EnrolPreserves | ForceManII/ParseFile.cpp:64-67 | Registering a known term whose rule is in place keeps the invariant. |
| Parse.LineKeepsRules | ForceManII/ParseFile.cpp:172-235 | A line sets no combination rule other than a 6-12 one. |
| Parse.TermKeepsRules | ForceManII/ParseFile.cpp:197-235 | The record builders leave the combination rules alone. |
| Parse.RecordTermKeepsRules | ForceManII/ParseFile.cpp:197-229 | generic_fill and the improper builders leave the combination rules alone. |
| Parse.PairTermKeepsRules | ForceManII/ParseFile.cpp:230-235 | parse_chg and parse_lj leave the combination rules alone. |
| ParseFacts.ParsedTermResolves | ForceManII/FManII.cpp:94-107 | For every term of a parsed record, assignment finds a typing, so it never fails for a missing one. It resolves charges by type and every other term except the 6-12 ones by class. It orders tuples with the rule the term's kind calls for and leaves unordered terms' tuples alone. |

## Left out

- Numeric conversion: `std::stod`, `std::stoi` and `std::stoul`, and the unit factors, are parameters (`index`, `scaled`). This includes `kcalmol2au`, `ang2au`, `deg2rad`, the derived `k2au`, the 0.5 Tinker factor, the sigma scale and the reciprocal 1-4 scales. Their arithmetic is floating point and is not modelled.
- Conversion failures: an exception from `stoi`/`stod` on a malformed number is not modelled; every token converts.
- Too-short lines: indexing a token a line does not have is undefined behaviour in the source. It is modelled as the error `MalformedLine`.
- `ForceField::add_param`, `link_terms`, `get_term` and the ordering functions (`pair_order`, `angle_order`, `torsion_order`, `imp_order`) are parameters: their definitions are not part of this model.
- Input: `std::getline` on an `istream` becomes a sequence of lines.
- Locale: `toupper` and the whitespace test are those of the C locale.
- Geometry: the Cartesian coordinates are not used by enumeration. The coordinate objects (`Distance`, `Angle`, `Torsion`, `ImproperTorsion`) are lists of index tuples.
- Connectivity: `ConnData` is a sequence of strictly increasing rows, the iteration order of `std::set`. A neighbour index outside the graph is undefined behaviour; `GetCoords` requires it does not happen.
- Debug checks: `DEBUG_CHECK` is modelled as enabled, and a failing check as an error result. A build with the checks compiled out, which does not fail, is not modelled. The checks run before the walk rather than during it; that does not change the result, because an exception discards the partial result.
- Term order: `assign_params` visits the terms in `std::map` order. The model visits them in any order, and its contract holds for every order.
- Aliasing: the records are values; `unique_ptr` ownership and in-place mutation through references are not modelled.
- Empty single-atom entries: under a combination rule, FManII.cpp:115 and :120 read the first component of an atom's single-atom entry without checking that it exists. An empty entry is undefined behaviour in the source; the model reports it as `BadShape`.
- Coordinate tuples: `CoordsIn`, which `AssignParams` requires, demands that every atom index of every tuple is in range of `Types` and that no tuple is empty. An index out of range is undefined behaviour in the source (`Types[t]` is unchecked), and the enumerator never produces an empty tuple.
- Floating point: `std::pow(x, 1.0/n)` is a parameter. Sums and products are over reals without rounding.
- Coords.Pair13CollectionMissing: shows that the PAIR13 pair is classified into a key the source's map lacks. It does not model the null dereference that follows.

## Findings

| source | as written | input that shows it | evidently intended | confidence | as-written member | corrected member |
|---|---|---|---|---|---|---|
| ForceManII/FManII.cpp:38-43, 81-83 | The collection map is created with BOND, ANGLE, TORSION, IMPTORSION, PAIR and PAIR14 but no PAIR13. The pair loop then files a 1,3 pair under PAIR13, so `FoundCoords[PAIR13]` default-constructs a null pointer and calls `add_coord` through it. | The chain 0-1-2: the pair (0, 2) is classified PAIR13. | A PAIR13 collection is created like the others. | not executed | Coords.SourceCollections, Coords.Pair13CollectionMissing | Coords.Collect, Coords.GetCoords |
