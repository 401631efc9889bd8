/** The `exampleAdc` trial readings of api/sensor.js (1647 samples). */
module SampleData {

  /** The samples as written: whole ADC counts. */
  const ExampleAdcCounts: seq<int> := [
      11, 8, 9, 11, 12, 11, 11, 11, 11, 2277, 2277, 2274, 2276, 2277, 2275, 2276,
      2273, 2274, 2275, 2276, 2276, 2279, 2249, 2279, 2278, 2276, 2271, 2276, 2276, 2277, 2276, 2268,
      2277, 2278, 2276, 2278, 2277, 2276, 2276, 2268, 2278, 2279, 2274, 2273, 2276, 2274, 2275, 2274,
      2275, 2273, 2275, 2274, 2278, 2275, 2276, 2275, 2276, 2276, 2272, 2276, 2268, 2272, 2275, 2275,
      2275, 2275, 2273, 2275, 2275, 2275, 2274, 2276, 2274, 2275, 2274, 2275, 2278, 2253, 2274, 2275,
      2275, 2274, 2274, 2274, 2276, 2273, 2274, 2275, 2270, 2272, 2274, 2272, 2274, 2274, 2255, 2278,
      2268, 2274, 2271, 2270, 2272, 2273, 2273, 2272, 2274, 2273, 2272, 2272, 2265, 2267, 2272, 2268,
      2274, 2274, 2275, 2273, 2276, 2272, 2268, 2272, 2269, 2272, 2271, 2272, 2269, 2273, 2272, 2270,
      2271, 2270, 2273, 2272, 2268, 2271, 2276, 2272, 2272, 2272, 2273, 2270, 2274, 2274, 2275, 2272,
      2276, 2272, 2274, 2272, 2271, 2253, 2257, 2265, 2264, 2274, 2274, 2273, 2272, 2276, 2271, 2274,
      2274, 2275, 2273, 2272, 2272, 2272, 2256, 2273, 2273, 2276, 2271, 2272, 2274, 2276, 2275, 2273,
      2275, 2275, 2278, 2275, 2272, 2277, 2272, 2270, 2273, 2276, 2277, 2265, 2257, 2261, 2249, 2258,
      2267, 2268, 2265, 2269, 2268, 2270, 2278, 2280, 2277, 2277, 2276, 2274, 2270, 2278, 2276, 2280,
      2280, 2278, 2276, 2278, 2278, 2277, 2280, 2282, 2278, 2280, 2278, 2281, 2276, 2258, 2279, 2278,
      2278, 2281, 2278, 2280, 2279, 2282, 2278, 2280, 2279, 2279, 2279, 2279, 2281, 2283, 2272, 2278,
      2279, 2277, 2276, 2276, 2279, 2276, 2278, 2278, 2277, 2276, 2276, 2280, 2280, 2280, 2276, 2273,
      2281, 2277, 2281, 2277, 2277, 2267, 2273, 2273, 2269, 2263, 2264, 2258, 2266, 2272, 2274, 2273,
      2275, 2276, 2280, 2280, 2269, 2276, 2284, 2280, 2281, 2279, 2282, 2281, 2278, 2280, 2279, 2279,
      2277, 2281, 2281, 2282, 2283, 2252, 2281, 2281, 2280, 2278, 2277, 2278, 2279, 2275, 2277, 2279,
      2278, 2279, 2273, 2275, 2276, 2278, 2272, 2277, 2274, 2279, 2280, 2278, 2280, 2279, 2281, 2280,
      2277, 2279, 2273, 2280, 2278, 2277, 2277, 2278, 2280, 2278, 2278, 2276, 2276, 2278, 2278, 2278,
      2275, 2278, 2278, 2278, 2278, 2279, 2276, 2276, 2276, 2275, 2278, 2277, 2271, 2279, 2281, 2282,
      2281, 2277, 2279, 2280, 2281, 2282, 2282, 2276, 2278, 2278, 2280, 2283, 2282, 2248, 2280, 2281,
      2281, 2282, 2278, 2280, 2284, 2280, 2283, 2280, 2279, 2282, 2283, 2280, 2277, 2280, 2271, 2281,
      2279, 2279, 2278, 2279, 2280, 2281, 2279, 2283, 2279, 2282, 2282, 2283, 2281, 2279, 2283, 2279,
      2279, 2280, 2279, 2274, 2280, 2280, 2282, 2279, 2278, 2276, 2275, 2262, 2271, 2274, 2275, 2273,
      2274, 2274, 2273, 2276, 2265, 2271, 2275, 2272, 2269, 2268, 2271, 2271, 2274, 2274, 2275, 2274,
      2273, 2272, 2274, 2272, 2275, 2218, 2276, 2278, 2270, 2275, 2273, 2274, 2276, 2275, 2276, 2276,
      2272, 2271, 2272, 2272, 2272, 2272, 2264, 2275, 2274, 2268, 2276, 2273, 2278, 2276, 2275, 2275,
      2262, 2268, 2266, 2269, 2272, 2272, 2268, 2272, 2276, 2271, 2270, 2270, 2276, 2270, 2268, 2269,
      2270, 2270, 2274, 2265, 2252, 2268, 2272, 2272, 2275, 2272, 2270, 2273, 2260, 2271, 2272, 2279,
      2273, 2274, 2272, 2272, 2273, 2274, 2273, 2272, 2274, 2274, 2274, 2277, 2275, 2242, 2275, 2274,
      2276, 2274, 2273, 2275, 2275, 2272, 2273, 2274, 2275, 2276, 2270, 2276, 2279, 2276, 2270, 2275,
      2274, 2275, 2273, 2274, 2276, 2276, 2278, 2276, 2277, 2276, 2276, 2276, 2276, 2276, 2276, 2275,
      2275, 2275, 2278, 2274, 2277, 2274, 2275, 2274, 2277, 2275, 2278, 2276, 2275, 2272, 2276, 2278,
      2274, 2278, 2270, 2272, 2258, 2274, 2274, 2275, 2275, 2275, 2276, 2275, 2276, 2274, 2274, 2275,
      2276, 2272, 2272, 2272, 2272, 2237, 2276, 2275, 2273, 2274, 2273, 2276, 2275, 2276, 2274, 2273,
      2273, 2275, 2274, 2277, 2276, 2276, 2266, 2272, 2275, 2275, 2276, 2274, 2276, 2273, 2273, 2276,
      2271, 2274, 2275, 2275, 2273, 2275, 2275, 2276, 2279, 2277, 2274, 2267, 2275, 2277, 2276, 2277,
      2276, 2277, 2276, 2278, 2278, 2274, 2275, 2279, 2278, 2275, 2278, 2276, 2254, 2275, 2274, 2276,
      2278, 2278, 2277, 2276, 2277, 2276, 2276, 2275, 2277, 2276, 2274, 2276, 2277, 2245, 2274, 2274,
      2275, 2274, 2275, 2276, 2275, 2276, 2277, 2275, 2276, 2274, 2278, 2278, 2270, 2276, 2270, 2274,
      2274, 2279, 2275, 2272, 2278, 2276, 2278, 2278, 2276, 2276, 2278, 2276, 2276, 2278, 2276, 2275,
      2280, 2279, 2276, 2270, 2278, 2276, 2275, 2273, 2272, 2274, 2274, 2275, 2269, 2274, 2269, 2268,
      2271, 2271, 2271, 2271, 2248, 2270, 2270, 2270, 2274, 2273, 2271, 2270, 2273, 2271, 2272, 2271,
      2269, 2270, 2272, 2272, 2270, 2253, 2272, 2272, 2272, 2273, 2274, 2274, 2275, 2275, 2272, 2272,
      2274, 2272, 2274, 2276, 2272, 2276, 2271, 2273, 2275, 2277, 2273, 2270, 2276, 2276, 2276, 2275,
      2277, 2275, 2276, 2276, 2278, 2274, 2276, 2276, 2276, 2275, 2276, 2268, 2276, 2276, 2276, 2277,
      2272, 2273, 2276, 2277, 2274, 2276, 2276, 2276, 2276, 2278, 2278, 2279, 2255, 2278, 2270, 2272,
      2269, 2273, 2270, 2270, 2269, 2272, 2270, 2272, 2271, 2270, 2271, 2271, 2271, 2256, 2268, 2269,
      2270, 2269, 2266, 2271, 2271, 2271, 2272, 2274, 2272, 2273, 2271, 2271, 2271, 2272, 2268, 2269,
      2270, 2271, 2267, 2262, 2266, 2265, 2265, 2265, 2267, 2263, 2267, 2265, 2264, 2267, 2269, 2266,
      2265, 2265, 2266, 2259, 2265, 2270, 2270, 2271, 2267, 2268, 2268, 2269, 2267, 2268, 2268, 2267,
      2268, 2268, 2269, 2267, 2236, 2266, 2266, 2270, 2269, 2263, 2266, 2264, 2266, 2265, 2265, 2266,
      2268, 2266, 2268, 2268, 2266, 2249, 2267, 2267, 2265, 2265, 2263, 2264, 2266, 2266, 2265, 2266,
      2267, 2266, 2267, 2268, 2266, 2265, 2264, 2266, 2267, 2268, 2260, 2263, 2268, 2270, 2270, 2271,
      2271, 2265, 2265, 2262, 2267, 2265, 2264, 2265, 2265, 2264, 2261, 2253, 2260, 2262, 2263, 2266,
      2263, 2264, 2264, 2267, 2264, 2268, 2267, 2266, 2264, 2266, 2265, 2267, 2234, 2266, 2268, 2263,
      2263, 2260, 2265, 2263, 2265, 2260, 2265, 2266, 2264, 2262, 2263, 2261, 2265, 2256, 2262, 2263,
      2262, 2265, 2265, 2265, 2265, 2266, 2265, 2266, 2267, 2265, 2267, 2268, 2267, 2266, 2264, 2269,
      2267, 2271, 2266, 2260, 2270, 2269, 2266, 2268, 2267, 2268, 2268, 2270, 2271, 2272, 2271, 2272,
      2270, 2272, 2268, 2257, 2265, 2267, 2268, 2258, 2260, 2253, 2251, 2252, 2253, 2252, 2253, 2255,
      2256, 2255, 2256, 2255, 2224, 2257, 2257, 2258, 2254, 2252, 2258, 2256, 2256, 2256, 2258, 2257,
      2256, 2256, 2258, 2258, 2261, 2250, 2259, 2261, 2255, 2259, 2257, 2239, 2254, 2259, 2263, 2264,
      2258, 2264, 2259, 2262, 2263, 2263, 2262, 2260, 2261, 2261, 2258, 2254, 2262, 2264, 2261, 2262,
      2263, 2261, 2263, 2263, 2261, 2263, 2265, 2262, 2260, 2262, 2262, 2250, 2260, 2261, 2259, 2261,
      2260, 2264, 2263, 2260, 2264, 2262, 2261, 2261, 2261, 2260, 2260, 2258, 2208, 2261, 2262, 2262,
      2264, 2262, 2264, 2264, 2260, 2263, 2263, 2262, 2263, 2263, 2262, 2263, 2262, 2255, 2264, 2262,
      2263, 2262, 2260, 2263, 2262, 2263, 2266, 2263, 2263, 2264, 2265, 2265, 2262, 2263, 2263, 2264,
      2262, 2262, 2258, 2253, 2261, 2263, 2262, 2262, 2264, 2263, 2262, 2266, 2262, 2262, 2261, 2262,
      2262, 2263, 2262, 2247, 2261, 2264, 2264, 2261, 2264, 2261, 2261, 2262, 2262, 2257, 2259, 2258,
      2258, 2261, 2260, 2258, 2209, 2259, 2260, 2260, 2260, 2259, 2256, 2258, 2257, 2260, 2262, 2260,
      2257, 2260, 2258, 2260, 2256, 2248, 2258, 2257, 2258, 2260, 2254, 2258, 2260, 2260, 2259, 2258,
      2256, 2255, 2258, 2258, 2257, 2255, 2258, 2257, 2259, 2258, 2253, 2248, 2256, 2256, 2258, 2258,
      2260, 2258, 2258, 2257, 2259, 2259, 2261, 2258, 2258, 2259, 2259, 2241, 2260, 2259, 2260, 2260,
      2258, 2259, 2260, 2259, 2258, 2259, 2258, 2258, 2260, 2259, 2260, 2259, 2221, 2260, 2260, 2260,
      2263, 2261, 2260, 2264, 2262, 2261, 2261, 2262, 2260, 2258, 2261, 2262, 2262, 2254, 2260, 2259,
      2259, 2256, 2250, 2255, 2259, 2256, 2256, 2255, 2257, 2256, 2255, 2257, 2259, 2255, 2255, 2257,
      2256, 2255, 2250, 2246, 2255, 2256, 2257, 2256, 2255, 2255, 2256, 2254, 2258, 2257, 2256, 2255,
      2257, 2256, 2257, 2246, 2256, 2260, 2258, 2259, 2255, 2258, 2259, 2263, 2258, 2258, 2259, 2259,
      2258, 2261, 2260, 2262, 2227, 2258, 2258, 2257, 2254, 2255, 2246, 2247, 2258, 2257, 2259, 2260,
      2262, 2262, 2263, 2262, 2266, 2254, 2262, 2263, 2262, 2263, 2258, 2263, 2264, 2263, 2264, 2262,
      2262, 2263, 2265, 2262, 2264, 2261, 2261, 2264, 2263, 2262, 2258, 2249, 2262, 2264, 2264, 2265,
      2259, 2264, 2260, 2262, 2261, 2262, 2262, 2263, 2263, 2264, 2264, 2243, 2264, 2263, 2264, 2263,
      2266, 2265, 2265, 2266, 2262, 2264, 2265, 2267, 2259, 2258, 2261, 2258, 2234, 2256, 2258, 2258,
      2259, 2264, 2264, 2261, 2261, 2260, 2260, 2261, 2262, 2262, 2263, 2264, 2262, 2257, 2262, 2262,
      2262, 2260, 2258, 2265, 2264, 2264, 2261, 2265, 2265, 2265, 2263, 2262, 2261, 2264, 2263, 2263,
      2263, 2263, 2254, 2247, 2257, 2261, 2261, 2260, 2264, 2264, 2261, 2257, 2262, 2265, 2261, 2260,
      2262, 2261, 2261, 2238, 2260, 2260, 2264, 2261, 2260, 2265, 2263, 2261, 2260, 2262, 2262, 2263,
      2260, 2259, 2260, 2261, 2242, 2260, 2260, 2259, 2259, 2256, 2257, 2260, 2258, 2257, 2258, 2255,
      2255, 2256, 2256, 2254, 2257, 2251, 2256, 2257, 2258, 2256, 2251, 2256, 2260, 2256, 2257, 2257,
      2258, 2258, 2257, 2257, 2256, 2255, 2256, 2258, 2256, 2256, 2246, 2239, 2257, 2258, 2259, 2255,
      2257, 2258, 2260, 2257, 2259, 2260, 2257, 2257, 2257, 2260, 2258, 2234, 2254, 2255, 2256, 2256,
      2254, 2256, 2257, 2255, 2255, 2256, 2256, 2263, 2264, 2260, 2259, 2259, 2248, 2252, 2253, 2254,
      2252, 2252, 2255, 2256, 2255, 2253, 2253, 2256, 2255, 2256, 2256, 2254, 2254, 2252, 2255, 2258,
      2257, 2258, 2252, 2253, 2252, 2257, 2258, 2257, 2257, 2256, 2254, 2258, 2255, 2258, 2254, 2256,
      2258, 2256, 2246, 2234, 2256, 2255, 2254, 2254, 2255, 2255, 2255, 2255, 2249, 2253, 2253, 2253,
      2253, 2256, 2254, 2223, 2253, 2254, 2255, 2256, 2254, 2254, 2255, 2254, 2255, 2255, 2257, 2257,
      2257, 2257, 2258, 2256, 2250, 2257, 2257, 2257, 2259, 2254, 2255, 2257, 2258, 2259, 2259, 2256,
      2257, 2258, 2256, 2254, 2258, 2254, 2258, 2261, 2256, 2255, 2250, 2254, 2256, 2256, 2255, 2255,
      2257, 2254, 2253, 2253, 2254, 2254, 2254, 2254, 2256, 2245, 2238, 2224, 2246, 2250, 2246, 2248,
      2249, 2250, 2247, 2248, 2225, 2223, 2210, 2212, 2216, 2218, 2218, 2424, 2202, 12, 11, 12,
      11, 12, 11, 12, 11, 12, 12, 11, 12, 11, 8, 10, 11, 11, 13
  ]

  /** The same samples as JavaScript numbers. */
  function ExampleAdc(): seq<real> {
    seq(|ExampleAdcCounts|, i requires 0 <= i < |ExampleAdcCounts| => ExampleAdcCounts[i] as real)
  }
}
