/**
 * seedDatabase: empty the store, then create the five sample problems in
 * their listed order.
 */
module SeedData {
  import opened Wrappers
  import opened Types
  import opened Database
  import DbService
  import Text
  import Seqs

  /** The "Reverse String" sample. */
  function ReverseString(): ProblemDraft {
    ProblemDraft(
      "Reverse String",
      Text.Concat([
        "Write a function that reverses a",
        " string. The input string is giv",
        "en as an array of characters s.\n",
        "\n",
        "You must do this by modifying th",
        "e input array in-place with O(1)",
        " extra memory.\n",
        "\n",
        "**Example 1:**\n",
        "- Input: s = [\"h\",\"e\",\"l\",\"l\",\"o",
        "\"]\n",
        "- Output: [\"o\",\"l\",\"l\",\"e\",\"h\"]\n",
        "\n",
        "**Example 2:**\n",
        "- Input: s = [\"H\",\"a\",\"n\",\"n\",\"a",
        "\",\"h\"]\n",
        "- Output: [\"h\",\"a\",\"n\",\"n\",\"a\",\"",
        "H\"]\n",
        "\n",
        "**Constraints:**\n",
        "- 1 <= s.length <= 10^5\n",
        "- s[i] is a printable ascii char",
        "acter."]),
      Easy,
      ReverseStringCases(),
      None)
  }

  /** The test cases of the "Reverse String" sample. */
  function ReverseStringCases(): seq<TestCase> {
    [TestCase("[\"h\",\"e\",\"l\",\"l\",\"o\"]", "[\"o\",\"l\",\"l\",\"e\",\"h\"]", Some("Reverse the array in-place")),
      TestCase("[\"H\",\"a\",\"n\",\"n\",\"a\",\"h\"]", "[\"h\",\"a\",\"n\",\"n\",\"a\",\"H\"]", Some("Reverse the array in-place"))]
  }

  /** The "Valid Parentheses" sample. */
  function ValidParentheses(): ProblemDraft {
    ProblemDraft(
      "Valid Parentheses",
      Text.Concat([
        "Given a string s containing just",
        " the characters '(', ')', '{', '",
        "}', '[' and ']', determine if th",
        "e input string is valid.\n",
        "\n",
        "An input string is valid if:\n",
        "1. Open brackets must be closed ",
        "by the same type of brackets.\n",
        "2. Open brackets must be closed ",
        "in the correct order.\n",
        "3. Every close bracket has a cor",
        "responding open bracket of the s",
        "ame type.\n",
        "\n",
        "**Example 1:**\n",
        "- Input: s = \"()\"\n",
        "- Output: true\n",
        "\n",
        "**Example 2:**\n",
        "- Input: s = \"()[]{}\"\n",
        "- Output: true\n",
        "\n",
        "**Example 3:**\n",
        "- Input: s = \"(]\"\n",
        "- Output: false\n",
        "\n",
        "**Constraints:**\n",
        "- 1 <= s.length <= 10^4\n",
        "- s consists of parentheses only",
        " '()[]{}'"]),
      Easy,
      ValidParenthesesCases(),
      None)
  }

  /** The test cases of the "Valid Parentheses" sample. */
  function ValidParenthesesCases(): seq<TestCase> {
    [TestCase("\"()\"", "true", Some("Simple valid parentheses")),
      TestCase("\"()[]{}\"", "true", Some("Multiple valid parentheses")),
      TestCase("\"(]\"", "false", Some("Invalid parentheses"))]
  }

  /** The "Maximum Subarray" sample. */
  function MaximumSubarray(): ProblemDraft {
    ProblemDraft(
      "Maximum Subarray",
      Text.Concat([
        "Given an integer array nums, fin",
        "d the subarray with the largest ",
        "sum, and return its sum.\n",
        "\n",
        "**Example 1:**\n",
        "- Input: nums = [-2,1,-3,4,-1,2,",
        "1,-5,4]\n",
        "- Output: 6\n",
        "- Explanation: The subarray [4,-",
        "1,2,1] has the largest sum 6.\n",
        "\n",
        "**Example 2:**\n",
        "- Input: nums = [1]\n",
        "- Output: 1\n",
        "\n",
        "**Example 3:**\n",
        "- Input: nums = [5,4,-1,7,8]\n",
        "- Output: 23\n",
        "\n",
        "**Constraints:**\n",
        "- 1 <= nums.length <= 10^5\n",
        "- -10^4 <= nums[i] <= 10^4\n",
        "\n",
        "**Follow up:** If you have figur",
        "ed out the O(n) solution, try co",
        "ding another solution using the ",
        "divide and conquer approach, whi",
        "ch is more subtle."]),
      Medium,
      MaximumSubarrayCases(),
      None)
  }

  /** The test cases of the "Maximum Subarray" sample. */
  function MaximumSubarrayCases(): seq<TestCase> {
    [TestCase("[-2,1,-3,4,-1,2,1,-5,4]", "6", Some("Subarray [4,-1,2,1] has sum 6")),
      TestCase("[1]", "1", Some("Single element array")),
      TestCase("[5,4,-1,7,8]", "23", Some("Subarray [5,4,-1,7,8] has sum 23"))]
  }

  /** The "Merge Two Sorted Lists" sample. */
  function MergeTwoSortedLists(): ProblemDraft {
    ProblemDraft(
      "Merge Two Sorted Lists",
      Text.Concat([
        "You are given the heads of two s",
        "orted linked lists list1 and lis",
        "t2.\n",
        "\n",
        "Merge the two lists into one sor",
        "ted list. The list should be mad",
        "e by splicing together the nodes",
        " of the first two lists.\n",
        "\n",
        "Return the head of the merged li",
        "nked list.\n",
        "\n",
        "**Example 1:**\n",
        "- Input: list1 = [1,2,4], list2 ",
        "= [1,3,4]\n",
        "- Output: [1,1,2,3,4,4]\n",
        "\n",
        "**Example 2:**\n",
        "- Input: list1 = [], list2 = []\n",
        "- Output: []\n",
        "\n",
        "**Example 3:**\n",
        "- Input: list1 = [], list2 = [0]",
        "\n",
        "- Output: [0]\n",
        "\n",
        "**Constraints:**\n",
        "- The number of nodes in both li",
        "sts is in the range [0, 50].\n",
        "- -100 <= Node.val <= 100\n",
        "- Both list1 and list2 are sorte",
        "d in non-decreasing order."]),
      Easy,
      MergeTwoSortedListsCases(),
      None)
  }

  /** The test cases of the "Merge Two Sorted Lists" sample. */
  function MergeTwoSortedListsCases(): seq<TestCase> {
    [TestCase("[1,2,4]\n[1,3,4]", "[1,1,2,3,4,4]", Some("Merge sorted lists")),
      TestCase("[]\n[]", "[]", Some("Empty lists")),
      TestCase("[]\n[0]", "[0]", Some("One empty list"))]
  }

  /** The "Climbing Stairs" sample. */
  function ClimbingStairs(): ProblemDraft {
    ProblemDraft(
      "Climbing Stairs",
      Text.Concat([
        "You are climbing a staircase. It",
        " takes n steps to reach the top.",
        "\n",
        "\n",
        "Each time you can either climb 1",
        " or 2 steps. In how many distinc",
        "t ways can you climb to the top?",
        "\n",
        "\n",
        "**Example 1:**\n",
        "- Input: n = 2\n",
        "- Output: 2\n",
        "- Explanation: There are two way",
        "s to climb to the top.\n",
        "  1. 1 step + 1 step\n",
        "  2. 2 steps\n",
        "\n",
        "**Example 2:**\n",
        "- Input: n = 3\n",
        "- Output: 3\n",
        "- Explanation: There are three w",
        "ays to climb to the top.\n",
        "  1. 1 step + 1 step + 1 step\n",
        "  2. 1 step + 2 steps\n",
        "  3. 2 steps + 1 step\n",
        "\n",
        "**Constraints:**\n",
        "- 1 <= n <= 45"]),
      Easy,
      ClimbingStairsCases(),
      None)
  }

  /** The test cases of the "Climbing Stairs" sample. */
  function ClimbingStairsCases(): seq<TestCase> {
    [TestCase("2", "2", Some("Two ways: 1+1 or 2")),
      TestCase("3", "3", Some("Three ways: 1+1+1, 1+2, or 2+1")),
      TestCase("4", "5", Some("Five ways: 1+1+1+1, 1+1+2, 1+2+1, 2+1+1, or 2+2"))]
  }

  /** The sample problems, in the order they are created. */
  function SampleProblems(): (r: seq<ProblemDraft>)
    ensures |r| == 5
  {
    [ReverseString(), ValidParentheses(), MaximumSubarray(), MergeTwoSortedLists(), ClimbingStairs()]
  }

  /** createProblem for each draft in turn. */
  function CreateAll(s: Store, ds: seq<ProblemDraft>): Store
    decreases |ds|
  {
    if |ds| == 0 then s else CreateAll(DbService.CreateProblem(s, ds[0]).0, ds[1..])
  }

  /** Creating drafts in turn appends them with consecutive ids from the counter, and touches nothing else. */
  lemma {:induction false} CreateAllAppends(s: Store, ds: seq<ProblemDraft>)
    ensures CreateAll(s, ds).problems ==
      s.problems + seq(|ds|, i requires 0 <= i < |ds| => NewProblem(s.nextIds.problems + i, ds[i]))
    ensures CreateAll(s, ds).nextIds == s.nextIds.(problems := s.nextIds.problems + |ds|)
    ensures CreateAll(s, ds).submissions == s.submissions && CreateAll(s, ds).attempts == s.attempts
    ensures Valid(s) ==> Valid(CreateAll(s, ds))
    decreases |ds|
  {
    if |ds| > 0 {
      var s1 := DbService.CreateProblem(s, ds[0]).0;
      CreateAllAppends(s1, ds[1..]);
      var rest := seq(|ds| - 1, i requires 0 <= i < |ds| - 1 => NewProblem(s1.nextIds.problems + i, ds[1..][i]));
      var all := seq(|ds|, i requires 0 <= i < |ds| => NewProblem(s.nextIds.problems + i, ds[i]));
      assert all == [NewProblem(s.nextIds.problems, ds[0])] + rest;
    }
  }

  /**
   * seedDatabase: clear every table and counter, then create the drafts in
   * their listed order. The application seeds with SampleProblems().
   */
  function SeedDatabase(s: Store, samples: seq<ProblemDraft>): (r: Store)
    ensures |r.problems| == |samples|
    ensures forall i :: 0 <= i < |samples| ==> r.problems[i] == NewProblem(i + 1, samples[i])
    ensures r.submissions == [] && r.attempts == []
    ensures r.nextIds == Counters(|samples| + 1, 1, 1)
    ensures Valid(r)
  {
    var cleared := DbService.ClearAllData(s);
    assert cleared == Empty;
    CreateAllAppends(Empty, samples);
    CreateAll(Empty, samples)
  }

  /** Clearing comes first, so nothing of the earlier store survives seeding. */
  lemma SeedForgetsPriorState(s1: Store, s2: Store, samples: seq<ProblemDraft>)
    ensures SeedDatabase(s1, samples) == SeedDatabase(s2, samples)
  {
    var r1 := SeedDatabase(s1, samples);
    var r2 := SeedDatabase(s2, samples);
    assert r1.problems == r2.problems;
  }

  /** Seeding twice leaves the same store as seeding once. */
  lemma SeedIdempotent(s: Store, samples: seq<ProblemDraft>)
    ensures SeedDatabase(SeedDatabase(s, samples), samples) == SeedDatabase(s, samples)
  {
    SeedForgetsPriorState(SeedDatabase(s, samples), s, samples);
  }

  /** After seeding, exactly the ids 1 to |samples| name a problem, and no seeded problem has been attempted. */
  lemma SeededLookups(s: Store, samples: seq<ProblemDraft>, id: int)
    ensures DbService.GetProblemById(SeedDatabase(s, samples), id).Some? <==> 1 <= id <= |samples|
    ensures DbService.GetProblemById(SeedDatabase(s, samples), id).Some? ==>
      DbService.GetProblemById(SeedDatabase(s, samples), id).value == NewProblem(id, samples[id - 1])
    ensures DbService.GetProblemStatus(SeedDatabase(s, samples), id) == NotAttempted
  {
    var r := SeedDatabase(s, samples);
    if 1 <= id <= |samples| {
      assert r.problems[id - 1].id == id;
      Seqs.FirstWithDetermined(r.problems, IdOf, id, Some(r.problems[id - 1]));
    }
  }

  /** Seeding with the sample problems gives them the ids 1 to 5, leaving the problems counter at 6. */
  lemma SampleSeeding(s: Store)
    ensures |SeedDatabase(s, SampleProblems()).problems| == 5
    ensures forall i :: 0 <= i < 5 ==> SeedDatabase(s, SampleProblems()).problems[i].id == i + 1
    ensures SeedDatabase(s, SampleProblems()).nextIds == Counters(6, 1, 1)
  {
    FiveSeeded(s, SampleProblems());
  }

  /** Seeding five drafts numbers them 1 to 5 and leaves the problems counter at 6. */
  lemma FiveSeeded(s: Store, samples: seq<ProblemDraft>)
    requires |samples| == 5
    ensures |SeedDatabase(s, samples).problems| == 5
    ensures forall i :: 0 <= i < 5 ==> SeedDatabase(s, samples).problems[i].id == i + 1
    ensures SeedDatabase(s, samples).nextIds == Counters(6, 1, 1)
  {
  }

  /** The number of ways to climb n stairs taking one or two steps at a time. */
  function Ways(n: nat): nat {
    if n <= 1 then 1 else Ways(n - 1) + Ways(n - 2)
  }

  /** Every Climbing Stairs case expects the number of ways for its input. */
  lemma ClimbingStairsCasesAgree()
    ensures |ClimbingStairsCases()| == 3
    ensures forall k :: 0 <= k < 3 ==>
      ClimbingStairsCases()[k].input == Text.NatToString(k + 2)
      && ClimbingStairsCases()[k].expectedOutput == Text.NatToString(Ways(k + 2))
  {
    assert Ways(4) == 5;
  }
}
